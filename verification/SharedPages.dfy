/**
 How readers share pages.  With exact or page-aligned hits, two readers of one page have it at
 the same place, and unless the page is full for both they stand for prompts of equal length.
 So nobody reads past the prompt in the page where a repeated prompt ends.
 */
module SharedPages {
  import opened Prelude
  import opened Paging
  import opened Ledger
  import opened PagePool
  import opened Allocator
  import opened PrefixTree
  import opened Generation
  import opened Engine
  import opened EngineSafety
  import opened EngineBalance
  import opened ColdBursts
  import opened EngineRuns

  datatype Reader = Request(id: nat) | Prompt(path: Path)

  ghost predicate Live(e: State, r: Reader) {
    match r
    case Request(id) => id in e.seqs && !e.seqs[id].finished
    case Prompt(p) => p in e.c.tree
  }

  ghost function PageList(e: State, r: Reader): seq<nat>
    requires Live(e, r)
  {
    match r
    case Request(id) => e.seqs[id].table
    case Prompt(p) => e.c.tree[p].blocks
  }

  /** Prompt rows the reader has on its pages. */
  ghost function PromptRows(e: State, r: Reader): nat
    requires Live(e, r)
  {
    match r
    case Request(id) => Min(e.seqs[id].cached, |e.seqs[id].prompt|)
    case Prompt(p) => |p|
  }

  /** Page `k` is full for both, or both have the same number of prompt rows. */
  ghost predicate Level(k: nat, n: nat, n': nat, bs: nat) {
    n == n' || (Multiple(k + 1, bs) <= n && Multiple(k + 1, bs) <= n')
  }

  ghost predicate Agree(l: seq<nat>, n: nat, l': seq<nat>, n': nat, bs: nat) {
    forall k, k' :: 0 <= k < |l| && 0 <= k' < |l'| && l[k] == l'[k'] ==> k == k' && Level(k, n, n', bs)
  }

  ghost predicate Strata(e: State) {
    forall r, r' :: Live(e, r) && Live(e, r') ==>
      Agree(PageList(e, r), PromptRows(e, r), PageList(e, r'), PromptRows(e, r'), e.c.bs)
  }

  // ---------------------------------------------------------------- frame

  ghost predicate Sole(c: Cache, b: nat) {
    b in c.alloc && c.alloc[b] == 1
  }

  /** Every page of the new list is private or stems from the same place of the old one. */
  ghost predicate Stems(l: seq<nat>, n: nat, l': seq<nat>, n': nat, c': Cache, bs: nat) {
    forall k :: 0 <= k < |l'| ==> Sole(c', l'[k]) || (k < |l| && l[k] == l'[k] && Level(k, n, n', bs))
  }

  ghost predicate StemsFrom(e: State, e': State, r: Reader, r': Reader)
    requires Live(e', r')
  {
    Live(e, r) && Stems(PageList(e, r), PromptRows(e, r), PageList(e', r'), PromptRows(e', r'), e'.c, e.c.bs)
  }

  ghost predicate HasStem(e: State, e': State, r': Reader)
    requires Live(e', r')
  {
    PageList(e', r') == [] || exists r :: StemsFrom(e, e', r, r')
  }

  /** A page with one reference has one reader. */
  lemma SoleReader(e: State, r: Reader, r': Reader, b: nat)
    requires Balanced(e) && Live(e, r) && Live(e, r') && Sole(e.c, b) && b in PageList(e, r) && b in PageList(e, r')
    ensures r == r'
  {
    hide Shape;
    var own, nodes := Tables(e.seqs), Blocks(e.c.tree);
    assert b in e.c.alloc ==> OwnerCount(e.c, own, b) == 1;
    match (r, r') {
      case (Request(i), Request(j)) =>
        TableOf(e.seqs, i);
        TableOf(e.seqs, j);
        SoleHolder(own, Sequence(i), Sequence(j), b);
      case (Request(i), Prompt(p)) =>
        TableOf(e.seqs, i);
        CountPos(own, Sequence(i), b);
        CountPos(nodes, p, b);
      case (Prompt(p), Request(i)) =>
        TableOf(e.seqs, i);
        CountPos(own, Sequence(i), b);
        CountPos(nodes, p, b);
      case (Prompt(p), Prompt(q)) =>
        SoleHolder(nodes, p, q, b);
    }
  }

  lemma ListDistinct(e: State, r: Reader)
    requires Balanced(e) && Live(e, r)
    ensures NoDup(PageList(e, r))
  {
    hide Shape, Counted;
    match r {
      case Request(id) =>
        TableOf(e.seqs, id);
        assert ListOk(e.c, Tables(e.seqs)[Sequence(id)]);
      case Prompt(p) =>
        assert ListOk(e.c, e.c.tree[p].blocks);
    }
  }

  lemma LevelChain(k: nat, a: nat, b: nat, c: nat, d: nat, bs: nat)
    requires Level(k, a, b, bs) && Level(k, a, c, bs) && Level(k, b, d, bs)
    ensures Level(k, c, d, bs)
  {
  }

  /** Two readers whose lists stem from readers that agree, agree. */
  lemma StemsAgree(e: State, e': State, r1: Reader, r2: Reader)
    requires Strata(e) && Balanced(e') && e'.c.bs == e.c.bs && Live(e', r1) && Live(e', r2) && r1 != r2
    requires HasStem(e, e', r1) && HasStem(e, e', r2)
    ensures Agree(PageList(e', r1), PromptRows(e', r1), PageList(e', r2), PromptRows(e', r2), e'.c.bs)
  {
    hide Balanced, Level, Live, PageList, PromptRows;
    var l1, n1, l2, n2 := PageList(e', r1), PromptRows(e', r1), PageList(e', r2), PromptRows(e', r2);
    forall k, k' | 0 <= k < |l1| && 0 <= k' < |l2| && l1[k] == l2[k']
      ensures k == k' && Level(k, n1, n2, e.c.bs)
    {
      var s1 :| StemsFrom(e, e', s1, r1);
      var s2 :| StemsFrom(e, e', s2, r2);
      if Sole(e'.c, l1[k]) {
        SoleReader(e', r1, r2, l1[k]);
      }
      assert Agree(PageList(e, s1), PromptRows(e, s1), PageList(e, s2), PromptRows(e, s2), e.c.bs);
      LevelChain(k, PromptRows(e, s1), PromptRows(e, s2), n1, n2, e.c.bs);
    }
  }

  lemma SelfAgrees(l: seq<nat>, n: nat, bs: nat)
    requires NoDup(l)
    ensures Agree(l, n, l, n, bs)
  {
  }

  lemma StrataFrame(e: State, e': State)
    requires Strata(e) && Balanced(e') && e'.c.bs == e.c.bs
    requires forall r :: Live(e', r) ==> HasStem(e, e', r)
    ensures Strata(e')
  {
    hide Balanced, Live, Agree, HasStem, PageList, PromptRows;
    forall r1, r2 | Live(e', r1) && Live(e', r2)
      ensures Agree(PageList(e', r1), PromptRows(e', r1), PageList(e', r2), PromptRows(e', r2), e'.c.bs)
    {
      if r1 == r2 {
        ListDistinct(e', r1);
        SelfAgrees(PageList(e', r1), PromptRows(e', r1), e'.c.bs);
      } else {
        StemsAgree(e, e', r1, r2);
      }
    }
  }

  /** A reader that is as it was. */
  lemma SameReader(e: State, e': State, r: Reader)
    requires Live(e, r) && Live(e', r) && PageList(e', r) == PageList(e, r) && PromptRows(e', r) == PromptRows(e, r)
    ensures HasStem(e, e', r)
  {
    hide Live, PageList, PromptRows;
    assert StemsFrom(e, e', r, r);
  }

  // ---------------------------------------------------------------- steps

  /** Requests other than `a` and the nodes of the new tree are as they were. */
  ghost predicate OthersSame(e: State, e': State, a: nat) {
    && (forall j :: j in e'.seqs && j != a ==> j in e.seqs && e'.seqs[j] == e.seqs[j])
    && (forall p :: p in e'.c.tree && e'.c.tree[p].blocks != [] ==>
          p in e.c.tree && e'.c.tree[p].blocks == e.c.tree[p].blocks)
  }

  /** A step of request `a` that leaves the other readers alone. */
  lemma StrataStepOf(e: State, e': State, a: nat)
    requires Strata(e) && Balanced(e') && e'.c.bs == e.c.bs && OthersSame(e, e', a)
    requires Live(e', Request(a)) ==> HasStem(e, e', Request(a))
    ensures Strata(e')
  {
    hide Balanced, HasStem, Strata;
    forall r | Live(e', r)
      ensures HasStem(e, e', r)
    {
      match r {
        case Request(j) =>
          if j != a {
            SameReader(e, e', r);
          }
        case Prompt(p) =>
          if e'.c.tree[p].blocks == [] {
            NoPages(e, e', r);
          } else {
            SameReader(e, e', r);
          }
      }
    }
    StrataFrame(e, e');
  }

  lemma NoPages(e: State, e': State, r: Reader)
    requires Live(e', r) && PageList(e', r) == []
    ensures HasStem(e, e', r)
  {
  }

  lemma StemIs(e: State, e': State, r: Reader, r': Reader)
    requires Live(e', r') && StemsFrom(e, e', r, r')
    ensures HasStem(e, e', r')
  {
  }

  lemma AdmitStrata(e: State, id: nat, prompt: seq<Token>, seed: nat)
    requires Balanced(e) && Strata(e) && id !in e.seqs
    ensures Strata(DoAdmit(e, id, prompt, seed))
  {
    hide Inv, Strata, Lookup, HasStem;
    var e' := DoAdmit(e, id, prompt, seed);
    AdmitInv(e, id, prompt, seed);
    match Lookup(e.c, prompt) {
      case Miss => NoPages(e, e', Request(id));
      case Hit(len, blocks, logits) =>
        AdmitHitPages(e.c, Tables(e.seqs), prompt);
        StemIs(e, e', Prompt(prompt[..len]), Request(id));
    }
    StrataStepOf(e, e', id);
  }

  lemma PrepareStrata(e: State, id: nat)
    requires Balanced(e) && Strata(e) && id in e.seqs && !e.seqs[id].finished
    ensures Strata(DoPrepare(e, id))
  {
    hide Inv, Strata, DoPrepare, HasStem;
    var e' := DoPrepare(e, id);
    PrepareInv(e, id);
    PrepareFrame(e, id);
    PrepareShape(e, id);
    forall k | 0 <= k < |e'.seqs[id].table|
      ensures var t, t' := e.seqs[id].table, e'.seqs[id].table;
        Sole(e'.c, t'[k]) || (k < |t| && t[k] == t'[k])
    {
      PreparedEntries(e, id, k);
    }
    StemIs(e, e', Request(id), Request(id));
    StrataStepOf(e, e', id);
  }

  lemma BurstStrata(e: State, id: nat)
    requires Balanced(e) && Strata(e) && id in e.seqs && !e.seqs[id].finished
    ensures Strata(DoBurst(e, id))
  {
    hide Inv, Strata, DoPrepare, HasStem, SlotOf;
    var e' := DoBurst(e, id);
    PrepareStrata(e, id);
    PrepareInv(e, id);
    BurstInv(e, id);
    if e' != DoPrepare(e, id) {
      SameReader(e, e', Request(id));
      StrataStepOf(e, e', id);
    }
  }

  lemma ForwardStrata(m: Model, e: State, id: nat)
    requires Good(m, e) && Strata(e) && Enabled(e, Forward(id)) && e.seqs[id].prompt != [] && e.c.bs > 0
    ensures Strata(DoForward(m, e, id))
  {
    hide Inv, Strata, HasStem, Write, Flat, Extend, Covers, KV, Reference, NodeOk, Rows, Pages;
    var s, e' := e.seqs[id], DoForward(m, e, id);
    ForwardInv(m, e, id) by { assert Balanced(e); }
    if e' != e {
      assert SeqOk(m, e.c, s);
      if NeedsPrefill(s) {
        PrefillStems(m, e, id);
      } else {
        SameReader(e, e', Request(id));
      }
      StrataStepOf(e, e', id);
    }
  }

  /** A prefill starts on a page boundary, and the pages from there on are private. */
  lemma PrefillStems(m: Model, e: State, id: nat)
    requires Good(m, e) && Enabled(e, Forward(id)) && e.seqs[id].prompt != [] && e.c.bs > 0
    requires NeedsPrefill(e.seqs[id]) && DoForward(m, e, id) != e
    ensures Live(DoForward(m, e, id), Request(id)) && HasStem(e, DoForward(m, e, id), Request(id))
  {
    hide Inv, HasStem, Write, Flat, Extend, Covers, KV, Reference, NodeOk, Rows, Pages, SlotOf, PageOf;
    var s, e' := e.seqs[id], DoForward(m, e, id);
    assert SeqOk(m, e.c, s);
    Recompose(s.cached, e.c.bs);
    forall k | 0 <= k < |s.table|
      ensures Sole(e'.c, s.table[k]) || Level(k, s.cached, |s.prompt|, e.c.bs)
    {
      if k < PageOf(s.cached, e.c.bs) {
        StartMono(k + 1, PageOf(s.cached, e.c.bs), e.c.bs);
      }
    }
    StemIs(e, e', Request(id), Request(id));
  }

  lemma DeliverStrata(m: Model, e: State, id: nat)
    requires id in e.seqs && !e.seqs[id].finished && e.seqs[id].pending.Some? && e.c.bs > 0
    requires Strata(e) && Good(m, e)
    ensures Strata(DoDeliver(e, id))
  {
    hide Inv, Strata, HasStem, Insert, KV, Reference, NodeOk, Rows, Undisturbed;
    var s, e' := e.seqs[id], DoDeliver(e, id);
    DeliverInv(e, id) by { assert Balanced(e); }
    assert SeqOk(m, e.c, s);
    if s.pre {
      InsertUndisturbed(e, id, e'.c);
      DeliverStems(e, e', id);
      StrataFrame(e, e');
    } else {
      SameReader(e, e', Request(id));
      StrataStepOf(e, e', id);
    }
  }

  lemma DeliverStems(e: State, e': State, id: nat)
    requires id in e.seqs && !e.seqs[id].finished && e'.seqs.Keys == e.seqs.Keys && id in e'.seqs
    requires Undisturbed(e, e'.c, id, e.seqs[id].prompt) && e.seqs[id].cached == |e.seqs[id].prompt|
    requires var s := e.seqs[id]; s.prompt in e'.c.tree && e'.c.tree[s.prompt].blocks == s.table
    requires e'.seqs[id] == e.seqs[id].(output := e'.seqs[id].output, pending := None, pre := false)
    requires forall j :: j in e.seqs && j != id ==> e'.seqs[j] == e.seqs[j]
    ensures forall r :: Live(e', r) ==> HasStem(e, e', r)
  {
    hide HasStem, ReadsKept, StillPrivate;
    forall r | Live(e', r)
      ensures HasStem(e, e', r)
    {
      match r {
        case Request(j) => SameReader(e, e', r);
        case Prompt(p) =>
          if p == e.seqs[id].prompt {
            StemIs(e, e', Request(id), r);
          } else if p in e.c.tree {
            SameReader(e, e', r);
          } else {
            NoPages(e, e', r);
          }
      }
    }
  }

  lemma FinishStrata(e: State, id: nat, keep: nat)
    requires Balanced(e) && Strata(e) && id in e.seqs
    ensures Strata(DoFinish(e, id, keep))
  {
    hide Inv, Strata, HasStem, Release;
    var e' := DoFinish(e, id, keep);
    FinishInv(e, id, keep);
    ReleaseKeepsTree(e.c, e.seqs[id].table);
    ReleaseSize(e.c, e.seqs[id].table);
    StrataStepOf(e, e', id);
  }

  lemma LoseStrata(e: State, id: nat, k: nat)
    requires Balanced(e) && Strata(e) && id in e.seqs && !e.seqs[id].finished
    ensures Strata(DoLose(e, id, k))
  {
    hide Inv, Strata, HasStem;
    var e' := DoLose(e, id, k);
    LoseInv(e, id, k);
    SameReader(e, e', Request(id));
    StrataStepOf(e, e', id);
  }

  lemma ApplyStrata(m: Model, e: State, step: Step)
    requires Sound(m, e) && Strata(e)
    ensures Strata(Apply(m, e, step))
  {
    hide Good, Balanced, Strata, ColdOk, DoAdmit, DoPrepare, DoBurst, DoForward, DoDeliver, DoFinish, DoLose;
    SoundBalanced(m, e);
    if Enabled(e, step) {
      match step {
        case Admit(id, prompt, seed) => AdmitStrata(e, id, prompt, seed);
        case Prepare(id) => PrepareStrata(e, id);
        case Burst(id) => BurstStrata(e, id);
        case Forward(id) => if e.seqs[id].prompt != [] { ForwardStrata(m, e, id); }
        case Deliver(id) => DeliverStrata(m, e, id);
        case Finish(id, keep) => FinishStrata(e, id, keep);
        case Lose(id, k) => LoseStrata(e, id, k);
      }
    }
  }

  lemma FreshStrata(e: State)
    requires Fresh(e)
    ensures Strata(e)
  {
  }

  // ---------------------------------------------------------------- starting a burst

  /** Admitted, not forwarded yet. */
  ghost predicate Unrun(s: Seq) {
    s.output == [] && s.pending.None?
  }

  /**
   Right after its first token a request may burst: when no other live request has been
   forwarded yet, nobody reads past the prompt in the page where it ends.
   */
  lemma FirstBurstIsClear(m: Model, e: State, id: nat)
    requires Sound(m, e) && Strata(e) && Enabled(e, Burst(id)) && !e.seqs[id].warm
    requires forall j :: j in e.seqs && j != id && !e.seqs[j].finished ==> Unrun(e.seqs[j])
    ensures Cleared(e, id)
  {
    hide Inv, KV, Reference, NodeOk, Pages, PageOf, SlotOf, Strata, ColdOk;
    var s, bs := e.seqs[id], e.c.bs;
    FirstDecode(m, e, id);
    if SlotOf(s.cached, bs) != 0 {
      var page, slot := PageOf(s.cached, bs), SlotOf(s.cached, bs);
      Recompose(s.cached, bs);
      forall j | j in e.seqs && j != id && !e.seqs[j].finished
        ensures Spares(e.seqs[j], s.table[page], slot, bs)
      {
        UnrunShort(m, e, j);
        ReadsUpTo(e, id, Request(j), page, slot);
      }
      forall p | p in e.c.tree
        ensures ReadsBelow(e.c.tree[p].blocks, |p|, s.table[page], slot, bs)
      {
        ReadsUpTo(e, id, Prompt(p), page, slot);
      }
    }
  }

  lemma FirstDecode(m: Model, e: State, id: nat)
    requires Sound(m, e) && Enabled(e, Burst(id)) && !e.seqs[id].warm
    ensures e.c.bs > 0 && e.seqs[id].cached == |e.seqs[id].prompt|
    ensures SlotOf(e.seqs[id].cached, e.c.bs) != 0 ==> PageOf(e.seqs[id].cached, e.c.bs) < |e.seqs[id].table|
  {
    hide Inv, KV, Reference, NodeOk, PageOf, SlotOf, ColdOk, Flat;
    assert SeqOk(m, e.c, e.seqs[id]);
    if SlotOf(e.seqs[id].cached, e.c.bs) != 0 {
      SlotZero(e.c.bs);
      NextOnPage(e.seqs[id].cached - 1, e.c.bs);
      PagesNext(e.seqs[id].cached - 1, e.c.bs);
    }
  }

  lemma SlotZero(bs: nat)
    requires bs > 0
    ensures SlotOf(0, bs) == 0
  {
  }

  lemma UnrunShort(m: Model, e: State, j: nat)
    requires Sound(m, e) && j in e.seqs && !e.seqs[j].finished && Unrun(e.seqs[j])
    ensures e.seqs[j].cached <= |e.seqs[j].prompt| && !e.seqs[j].cold
  {
    hide Inv, KV, Reference, NodeOk, ColdOk, Rows;
    assert SeqOk(m, e.c, e.seqs[j]);
  }

  /** A reader that shares the page where a prompt ends reads no further than the prompt. */
  lemma ReadsUpTo(e: State, id: nat, r: Reader, page: nat, slot: nat)
    requires Strata(e) && Live(e, Request(id)) && Live(e, r) && e.c.bs > 0
    requires page < |e.seqs[id].table| && slot < e.c.bs
    requires e.seqs[id].cached == |e.seqs[id].prompt| == Multiple(page, e.c.bs) + slot
    ensures ReadsBelow(PageList(e, r), PromptRows(e, r), e.seqs[id].table[page], slot, e.c.bs)
  {
    assert Agree(PageList(e, Request(id)), PromptRows(e, Request(id)), PageList(e, r), PromptRows(e, r), e.c.bs);
  }
}
