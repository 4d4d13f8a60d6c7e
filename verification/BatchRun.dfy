/**
 One scheduler step in the runner: first tokens from stored logits, then prefills and decodes in
 groups of equal cached length.  However the batch is grouped, the step is a run of the engine
 state machine, and every unfinished member gets exactly the token it would get alone.
 */
module BatchRun {
  import opened Prelude
  import opened Paging
  import opened PagePool
  import opened Generation
  import opened Engine
  import opened Allocator
  import opened EngineSafety
  import opened EngineBalance
  import opened ColdBursts
  import opened EngineRuns
  import opened RadixCacheImpl
  import opened EngineCoreImpl

  /** The token the model gives after the history of a request. */
  ghost function Expected(m: Model, s: Seq): Token {
    m.pick(m.out(KV(m, History(s))), s.seed, |s.output|)
  }

  /** A member is as it was admitted to the batch, except for pages. */
  ghost predicate SameMember(s: Seq, s': Seq) {
    s'.prompt == s.prompt && s'.seed == s.seed && s'.output == s.output && s'.finished == s.finished
  }

  ghost predicate Untouched(s: Seq, s': Seq) {
    SameMember(s, s') && s'.pending == s.pending && s'.cached == s.cached && s'.logits == s.logits
  }

  /** State in the middle of a batch: `done` members have their token, the others are untouched. */
  ghost predicate During(m: Model, e0: State, e: State, done: set<nat>) {
    && Sound(m, e) && e.seqs.Keys == e0.seqs.Keys
    && forall id :: id in e0.seqs ==>
         if id in done then SameMember(e0.seqs[id], e.seqs[id]) && e.seqs[id].pending == Some(Expected(m, e0.seqs[id]))
         else Untouched(e0.seqs[id], e.seqs[id])
  }

  /** Steps of the batch: page preparation and forwards of its members. */
  ghost predicate Within(steps: seq<Step>, batch: seq<nat>) {
    forall x :: x in steps ==> (x.Prepare? || x.Forward?) && x.id in batch
  }

  /** Every request has the tokens it had. */
  ghost predicate SameMembers(e0: State, e: State) {
    e.seqs.Keys == e0.seqs.Keys && forall id :: id in e0.seqs ==> SameMember(e0.seqs[id], e.seqs[id])
  }

  /** Each result is the member's undelivered token. */
  ghost predicate AllPending(e: State, batch: seq<nat>, results: seq<Option<Token>>) {
    && |results| == |batch|
    && forall i :: 0 <= i < |batch| && batch[i] in e.seqs && results[i].Some? ==>
         e.seqs[batch[i]].pending == results[i]
  }

  /** Members that can still get a token. */
  ghost predicate Open(e: State, id: nat) {
    id in e.seqs && !e.seqs[id].finished && e.seqs[id].pending.None? && e.seqs[id].prompt != []
  }

  lemma RunSnoc(m: Model, e: State, steps: seq<Step>, step: Step)
    ensures Run(m, e, steps + [step]) == Apply(m, Run(m, e, steps), step)
  {
    assert (steps + [step])[..|steps|] == steps;
  }

  lemma OpenStays(m: Model, e0: State, e: State, done: set<nat>, id: nat)
    requires During(m, e0, e, done) && Open(e0, id) && id !in done
    ensures Open(e, id) && e.seqs[id].cached == e0.seqs[id].cached
    ensures NeedsPrefill(e.seqs[id]) == NeedsPrefill(e0.seqs[id])
    ensures FromLogits(e.seqs[id]) == FromLogits(e0.seqs[id])
  {
    hide Sound;
  }

  lemma PrepareDuring(m: Model, e0: State, e: State, done: set<nat>, id: nat)
    requires During(m, e0, e, done) && id !in done && Enabled(e, Prepare(id))
    ensures During(m, e0, DoPrepare(e, id), done)
    ensures forall j :: j in e.seqs && j != id ==> j in DoPrepare(e, id).seqs && DoPrepare(e, id).seqs[j] == e.seqs[j]
  {
    hide Good, ColdOk, Balanced, DoPrepare;
    SoundBalanced(m, e);
    PrepareOk(m, e, id);
    PrepareCold(e, id);
    PrepareFrame(e, id);
    PrepareShape(e, id);
  }

  /** A forward of a ready member, or of one with stored logits, gives it its token. */
  lemma ForwardDuring(m: Model, e0: State, e: State, done: set<nat>, id: nat)
    requires During(m, e0, e, done) && id !in done && Open(e, id)
    requires FromLogits(e.seqs[id]) || e.seqs[id].ready
    ensures e.c.bs > 0 && During(m, e0, DoForward(m, e, id), done + {id})
    ensures id in DoForward(m, e, id).seqs && DoForward(m, e, id).seqs[id].pending == Some(Expected(m, e0.seqs[id]))
    ensures var e' := DoForward(m, e, id);
      forall j :: j in e.seqs && j != id ==> j in e'.seqs && e'.seqs[j] == e.seqs[j]
  {
    hide Sound, DoForward, KV, Balanced, Good, ColdOk;
    SoundBalanced(m, e);
    ForwardSound(m, e, id);
    ForwardGives(m, e, id);
  }

  lemma ForwardSound(m: Model, e: State, id: nat)
    requires Sound(m, e) && Open(e, id) && e.c.bs > 0
    ensures Sound(m, DoForward(m, e, id))
  {
    hide Good, ColdOk, Cleared, Balanced, DoForward;
    SoundBalanced(m, e);
    if e.seqs[id].cold {
      ForwardClear(e, id);
    }
    ForwardOk(m, e, id);
    ForwardCold(m, e, id);
  }

  lemma ForwardGives(m: Model, e: State, id: nat)
    requires Sound(m, e) && Open(e, id) && (FromLogits(e.seqs[id]) || e.seqs[id].ready)
    ensures e.c.bs > 0
    ensures var e' := DoForward(m, e, id);
      && e'.seqs.Keys == e.seqs.Keys && (forall j :: j in e.seqs && j != id ==> e'.seqs[j] == e.seqs[j])
      && SameMember(e.seqs[id], e'.seqs[id]) && e'.seqs[id].pending == Some(Expected(m, e.seqs[id]))
  {
    hide Good, ColdOk, Balanced, Write, Flat, Extend, KV, PageOf, SlotOf, Pages;
    SoundBalanced(m, e);
    var e' := DoForward(m, e, id);
    ForwardSound(m, e, id);
    ReadyPages(m, e, id);
    assert e' != e ==> e'.seqs[id].pending.Some?;
    PendingIs(m, e', id);
  }

  lemma PendingIs(m: Model, e: State, id: nat)
    requires Good(m, e) && id in e.seqs && !e.seqs[id].finished && e.seqs[id].pending.Some?
    ensures e.seqs[id].pending == Some(Expected(m, e.seqs[id]))
  {
    hide Inv, Flat, KV, Reference, NodeOk, PageOf, SlotOf, Pages, Rows, WarmPage, PrefillPages, DecodePage;
    assert SeqOk(m, e.c, e.seqs[id]);
  }

  /** Pages that are ready cover what the next forward reads and writes. */
  lemma ReadyPages(m: Model, e: State, id: nat)
    requires Good(m, e) && Open(e, id) && (FromLogits(e.seqs[id]) || e.seqs[id].ready)
    ensures var s := e.seqs[id]; !FromLogits(s) ==>
      && NextInput(s) != [] && s.ready
      && Covers(e.c.kv, s.table, e.c.bs, s.cached) && Covers(e.c.kv, s.table, e.c.bs, s.cached + |NextInput(s)|)
  {
    hide Inv, Flat, KV, Reference, NodeOk, PageOf, SlotOf, Pages, WarmPage;
    assert SeqOk(m, e.c, e.seqs[id]);
  }

  lemma TableIsOk(m: Model, e: State, id: nat)
    requires Good(m, e) && Open(e, id)
    ensures TableOk(e.c.kv, e.seqs[id].table)
  {
    hide Inv, Flat, KV, Reference, NodeOk, Progress;
    assert SeqOk(m, e.c, e.seqs[id]);
  }

  // ---------------------------------------------------------------- results

  /** Results so far: the expected token for every done member, nothing for the others. */
  ghost predicate ResultsOk(m: Model, e0: State, batch: seq<nat>, results: seq<Option<Token>>, done: set<nat>) {
    |results| == |batch| && forall i :: 0 <= i < |batch| && batch[i] in e0.seqs ==>
      results[i] == if batch[i] in done then Some(Expected(m, e0.seqs[batch[i]])) else None
  }

  lemma ResultSet(m: Model, e0: State, batch: seq<nat>, results: seq<Option<Token>>, done: set<nat>, i: nat,
                  r: Option<Token>)
    requires ResultsOk(m, e0, batch, results, done) && NoDup(batch) && i < |batch| && batch[i] in e0.seqs
    requires r == Some(Expected(m, e0.seqs[batch[i]]))
    ensures ResultsOk(m, e0, batch, results[i := r], done + {batch[i]})
  {
    hide Expected;
  }

  /** Indices of batch members that are open, not done, and of the given kind. */
  ghost predicate Todo(e0: State, batch: seq<nat>, idxs: seq<nat>, done: set<nat>) {
    && NoDup(idxs)
    && forall i :: i in idxs ==>
         i < |batch| && Open(e0, batch[i]) && !FromLogits(e0.seqs[batch[i]]) && batch[i] !in done
  }

  ghost function Members(batch: seq<nat>, idxs: seq<nat>): set<nat> {
    set i | i in idxs && 0 <= i < |batch| :: batch[i]
  }

  // ---------------------------------------------------------------- the plan of a batch

  ghost function Member(batch: seq<nat>, i: nat): nat {
    if i < |batch| then batch[i] else 0
  }

  ghost function CachedOf(e: State, batch: seq<nat>, i: nat): nat {
    if Member(batch, i) in e.seqs then e.seqs[Member(batch, i)].cached else 0
  }

  ghost function PromptOf(e: State, batch: seq<nat>, i: nat): nat {
    if Member(batch, i) in e.seqs then |e.seqs[Member(batch, i)].prompt| else 0
  }

  ghost function Prepares(batch: seq<nat>, idxs: seq<nat>): (r: seq<Step>)
    ensures |r| == |idxs|
  {
    seq(|idxs|, n requires 0 <= n < |idxs| => Prepare(Member(batch, idxs[n])))
  }

  ghost function Forwards(batch: seq<nat>, idxs: seq<nat>): (r: seq<Step>)
    ensures |r| == |idxs|
  {
    seq(|idxs|, n requires 0 <= n < |idxs| => Forward(Member(batch, idxs[n])))
  }

  /** Pages for all, then one forward for all. */
  ghost function Together(batch: seq<nat>, idxs: seq<nat>): seq<Step> {
    Prepares(batch, idxs) + Forwards(batch, idxs)
  }

  /** One member after the other. */
  ghost function Each(batch: seq<nat>, idxs: seq<nat>): seq<Step> {
    if idxs == [] then []
    else
      var n := |idxs| - 1;
      Each(batch, idxs[..n]) + [Prepare(Member(batch, idxs[n])), Forward(Member(batch, idxs[n]))]
  }

  /** All members have the cached length and the suffix length of the first. */
  ghost predicate SameSuffix(e: State, batch: seq<nat>, group: seq<nat>) {
    forall n :: 0 <= n < |group| ==>
      CachedOf(e, batch, group[n]) == CachedOf(e, batch, group[0]) && PromptOf(e, batch, group[n]) == PromptOf(e, batch,
                                                                                                               group[0])
  }

  ghost function GroupPlan(e: State, batch: seq<nat>, group: seq<nat>, prefill: bool): seq<Step> {
    if prefill && !SameSuffix(e, batch, group) then Each(batch, group) else Together(batch, group)
  }

  ghost function GroupsPlan(e: State, batch: seq<nat>, groups: seq<seq<nat>>, prefill: bool): seq<Step> {
    if groups == [] then []
    else
      var n := |groups| - 1;
      GroupsPlan(e, batch, groups[..n], prefill) + GroupPlan(e, batch, groups[n], prefill)
  }

  /** Cached lengths in order of first appearance. */
  ghost function Keys(e: State, batch: seq<nat>, idxs: seq<nat>): seq<nat> {
    if idxs == [] then []
    else
      var n := |idxs| - 1;
      var ks, k := Keys(e, batch, idxs[..n]), CachedOf(e, batch, idxs[n]);
      if k in ks then ks else ks + [k]
  }

  /** Indices with cached length `k`, in batch order. */
  ghost function OfLength(e: State, batch: seq<nat>, idxs: seq<nat>, k: nat): seq<nat> {
    if idxs == [] then []
    else
      var n := |idxs| - 1;
      OfLength(e, batch, idxs[..n], k) + if CachedOf(e, batch, idxs[n]) == k then [idxs[n]] else []
  }

  /** Groups of equal cached length, in order of first appearance. */
  ghost function Groups(e: State, batch: seq<nat>, idxs: seq<nat>): (r: seq<seq<nat>>)
    ensures |r| == |Keys(e, batch, idxs)|
  {
    var ks := Keys(e, batch, idxs);
    seq(|ks|, g requires 0 <= g < |ks| => OfLength(e, batch, idxs, ks[g]))
  }

  datatype Kind = Done | Stored | Prefilling | Decoding

  /** How run_batch classifies a member. */
  ghost function KindOf(e: State, batch: seq<nat>, prefill: seq<bool>, i: nat): Kind {
    if i >= |prefill| || Member(batch, i) !in e.seqs || e.seqs[Member(batch, i)].finished then Done
    else if FromLogits(e.seqs[Member(batch, i)]) then Stored
    else if prefill[i] && NeedsPrefill(e.seqs[Member(batch, i)]) then Prefilling
    else Kind.Decoding
  }

  /** Indices below `n` of one kind. */
  ghost function OfKind(e: State, batch: seq<nat>, prefill: seq<bool>, n: nat, kind: Kind): seq<nat> {
    if n == 0 then []
    else OfKind(e, batch, prefill, n - 1, kind) + if KindOf(e, batch, prefill, n - 1) == kind then [n - 1] else []
  }

  /**
   The steps of a whole batch: stored first tokens in batch order, then prefill groups, then
   decode groups.
   */
  ghost function BatchPlan(e: State, batch: seq<nat>, prefill: seq<bool>): seq<Step> {
    var n := |batch|;
    Forwards(batch, OfKind(e, batch, prefill, n, Stored))
    + GroupsPlan(e, batch, Groups(e, batch, OfKind(e, batch, prefill, n, Prefilling)), true)
    + GroupsPlan(e, batch, Groups(e, batch, OfKind(e, batch, prefill, n, Kind.Decoding)), false)
  }

  // ---------------------------------------------------------------- running out of pages

  /** No free page, no page id left, and no leaf to evict. */
  ghost predicate Exhausted(c: Cache) {
    c.free == [] && c.next == |c.kv| && Candidates(c) == []
  }

  /** The last step wanted pages for a member and found the pool exhausted. */
  ghost predicate Starved(e: State, steps: seq<Step>) {
    && steps != [] && steps[|steps| - 1].Prepare?
    && var id := steps[|steps| - 1].id; id in e.seqs && !e.seqs[id].ready && Exhausted(e.c)
  }

  lemma AllocRefused(c: Cache, own: Owners)
    requires PagePool.Inv(c, own) && Victim !in own && InFlight !in own && AllocBlocks(c, 1).Oom?
    ensures AllocBlocks(c, 1).c == c && Exhausted(c)
  {
    hide Shape, ListsOk, Counted, Keeps, Calm;
    OomExactly(c, own);
    assert Evict(c, 1) == (c, 0);
    assert AllocOne(c, 1) == Oom(c);
    assert AllocBlocks(c, 1) == Oom(Release(c, []));
  }

  lemma {:induction false} GrowthRefused(c: Cache, own: Owners, k: Owner, need: nat)
    requires PagePool.Inv(c, own) && k in own && k != InFlight && Victim !in own && InFlight !in own
    requires !Ensure(c, own[k], need).0
    ensures Exhausted(Ensure(c, own[k], need).1)
    decreases need - |own[k]|
  {
    hide PagePool.Inv, Keeps, Calm, AllocBlocks, Exhausted;
    AllocBlocksOk(c, own, 1);
    match AllocBlocks(c, 1) {
      case Oom(c1) => AllocRefused(c, own);
      case Got(c1, ids) =>
        assert ids == [ids[0]];
        GrowOwner(c1, own, k, ids);
        GrowthRefused(c1, own[k := own[k] + ids], k, need);
    }
  }

  lemma CopyRefused(c: Cache, own: Owners, b: nat)
    requires PagePool.Inv(c, own) && Victim !in own && InFlight !in own && Cow(c, b).Oom?
    ensures Exhausted(Cow(c, b).c)
  {
    hide PagePool.Inv, AllocBlocks, Exhausted;
    AllocRefused(c, own);
  }

  /** Preparation fails only for want of a page. */
  lemma PrepareRefused(e: State, id: nat)
    requires Balanced(e) && Enabled(e, Prepare(id)) && !DoPrepare(e, id).seqs[id].ready
    ensures Exhausted(DoPrepare(e, id).c)
  {
    hide PagePool.Inv, Keeps, Calm, Tables, Ensure, Cow, Exhausted, Pages, PageOf;
    var s, own, k := e.seqs[id], Tables(e.seqs), Sequence(id);
    var total := if NeedsPrefill(s) then |s.prompt| else s.cached + 1;
    var (ok, c1, t1) := Ensure(e.c, s.table, Pages(total, e.c.bs));
    var page := PageOf(s.cached, e.c.bs);
    TableOf(e.seqs, id);
    NoTemps(e.seqs);
    if !ok {
      GrowthRefused(e.c, own, k, Pages(total, e.c.bs));
    } else if !NeedsPrefill(s) && page < |t1| {
      EnsureOk(e.c, own, k, Pages(total, e.c.bs));
      CowOk(c1, own[k := t1], k, page);
      if Cow(c1, t1[page]).Oom? {
        CopyRefused(c1, own[k := t1], t1[page]);
      }
    }
  }

  // ---------------------------------------------------------------- groups

  /** Indices grouped by cached length, groups in order of first appearance. */
  ghost predicate Grouped(idxs: seq<nat>, groups: seq<seq<nat>>) {
    && (forall i :: i in idxs <==> exists g :: 0 <= g < |groups| && i in groups[g])
    && (forall g :: 0 <= g < |groups| ==> NoDup(groups[g]) && groups[g] != [])
    && (forall g, h, i :: 0 <= g < h < |groups| && i in groups[g] ==> i !in groups[h])
  }

  lemma GroupedNew(idxs: seq<nat>, groups: seq<seq<nat>>, i: nat)
    requires Grouped(idxs, groups) && i !in idxs
    ensures Grouped(idxs + [i], groups + [[i]])
  {
    var gs := groups + [[i]];
    forall x
      ensures x in idxs + [i] <==> exists g :: 0 <= g < |gs| && x in gs[g]
    {
      if x in idxs {
        var g :| 0 <= g < |groups| && x in groups[g];
        assert x in gs[g];
      }
      if x == i {
        assert x in gs[|groups|];
      }
      if g :| 0 <= g < |gs| && x in gs[g] {
        assert g < |groups| ==> x in groups[g];
      }
    }
  }

  lemma GroupedAdd(idxs: seq<nat>, groups: seq<seq<nat>>, i: nat, k: nat)
    requires Grouped(idxs, groups) && i !in idxs && k < |groups|
    ensures Grouped(idxs + [i], groups[k := groups[k] + [i]])
  {
    var gs := groups[k := groups[k] + [i]];
    assert forall g :: 0 <= g < |groups| ==> i !in groups[g];
    forall x
      ensures x in idxs + [i] <==> exists g :: 0 <= g < |gs| && x in gs[g]
    {
      if x in idxs {
        var g :| 0 <= g < |groups| && x in groups[g];
        assert x in gs[g];
      }
      if x == i {
        assert x in gs[k];
      }
      if g :| 0 <= g < |gs| && x in gs[g] {
        assert x in groups[g] || x == i;
      }
    }
  }

  lemma NoKeys(e: State, batch: seq<nat>)
    ensures Keys(e, batch, []) == [] && Groups(e, batch, []) == []
  {
  }

  lemma {:induction false} KeysDistinct(e: State, batch: seq<nat>, idxs: seq<nat>)
    ensures NoDup(Keys(e, batch, idxs))
    decreases |idxs|
  {
    if idxs != [] {
      KeysDistinct(e, batch, idxs[..|idxs| - 1]);
    }
  }

  lemma {:induction false} NewKeyEmpty(e: State, batch: seq<nat>, idxs: seq<nat>, k: nat)
    requires k !in Keys(e, batch, idxs)
    ensures OfLength(e, batch, idxs, k) == []
    decreases |idxs|
  {
    if idxs != [] {
      NewKeyEmpty(e, batch, idxs[..|idxs| - 1], k);
    }
  }

  lemma LengthNext(e: State, batch: seq<nat>, idxs: seq<nat>, i: nat, k: nat)
    ensures OfLength(e, batch, idxs + [i], k)
         == OfLength(e, batch, idxs, k) + if CachedOf(e, batch, i) == k then [i] else []
    ensures Keys(e, batch, idxs + [i])
         == if CachedOf(e, batch, i) in Keys(e, batch, idxs) then Keys(e, batch, idxs)
            else Keys(e, batch, idxs) + [CachedOf(e, batch, i)]
  {
    assert (idxs + [i])[..|idxs|] == idxs;
  }

  /** One more index joins the group of its length, or starts a new group at the end. */
  lemma GroupsNext(e: State, batch: seq<nat>, idxs: seq<nat>, i: nat, k: nat)
    requires var ks := Keys(e, batch, idxs); var len := CachedOf(e, batch, i);
      k <= |ks| && len !in ks[..k] && (k < |ks| ==> ks[k] == len)
    ensures var gs := Groups(e, batch, idxs);
      && Keys(e, batch, idxs + [i])
         == (if k < |gs| then Keys(e, batch, idxs) else Keys(e, batch, idxs) + [CachedOf(e, batch, i)])
      && Groups(e, batch, idxs + [i]) == if k < |gs| then gs[k := gs[k] + [i]] else gs + [[i]]
  {
    hide Keys, OfLength, CachedOf;
    var ks, len := Keys(e, batch, idxs), CachedOf(e, batch, i);
    var gs, gs' := Groups(e, batch, idxs), Groups(e, batch, idxs + [i]);
    KeysDistinct(e, batch, idxs);
    LengthNext(e, batch, idxs, i, len);
    if k == |ks| {
      assert ks[..k] == ks;
      NewKeyEmpty(e, batch, idxs, len);
    }
    forall g | 0 <= g < |gs|
      ensures gs'[g] == if g == k then gs[g] + [i] else gs[g]
    {
      LengthNext(e, batch, idxs, i, ks[g]);
      assert ks[g] in ks && (ks[g] == len <==> g == k);
    }
    if k < |gs| {
      assert ks[k] in ks;
      assert gs' == gs[k := gs[k] + [i]];
    } else {
      assert [] + [i] == [i];
      assert gs' == gs + [[i]];
    }
  }

  /** Grouping looks at cached lengths only. */
  lemma {:induction false} KeysSame(e: State, e': State, batch: seq<nat>, idxs: seq<nat>, k: nat)
    requires forall i :: i in idxs ==> CachedOf(e', batch, i) == CachedOf(e, batch, i)
    ensures Keys(e', batch, idxs) == Keys(e, batch, idxs)
    ensures OfLength(e', batch, idxs, k) == OfLength(e, batch, idxs, k)
    decreases |idxs|
  {
    if idxs != [] {
      var n := |idxs| - 1;
      assert idxs[n] in idxs;
      KeysSame(e, e', batch, idxs[..n], k);
    }
  }

  lemma GroupsSame(e: State, e': State, batch: seq<nat>, idxs: seq<nat>)
    requires forall i :: i in idxs ==> CachedOf(e', batch, i) == CachedOf(e, batch, i)
    ensures Groups(e', batch, idxs) == Groups(e, batch, idxs)
  {
    hide Keys, OfLength, CachedOf;
    KeysSame(e, e', batch, idxs, 0);
    var gs, gs' := Groups(e, batch, idxs), Groups(e', batch, idxs);
    forall g | 0 <= g < |gs|
      ensures gs'[g] == gs[g]
    {
      KeysSame(e, e', batch, idxs, Keys(e, batch, idxs)[g]);
    }
  }

  lemma GroupedNone()
    ensures Grouped([], [])
  {
  }

  method GroupByCached(core: EngineCore, batch: seq<nat>, idxs: seq<nat>) returns (groups: seq<seq<nat>>,
                                                                                   keys: seq<nat>)
    requires core.Valid() && NoDup(idxs) && forall i :: i in idxs ==> i < |batch| && batch[i] in core.seqs
    ensures Grouped(idxs, groups)
    ensures groups == Groups(core.View(), batch, idxs)
  {
    hide Grouped, Keys, OfLength;
    groups, keys := [], [];
    var n := 0;
    GroupedNone();
    NoKeys(core.View(), batch);
    while n < |idxs|
      invariant 0 <= n <= |idxs| && |keys| == |groups|
      invariant Grouped(idxs[..n], groups)
      invariant keys == Keys(core.View(), batch, idxs[..n]) && groups == Groups(core.View(), batch, idxs[..n])
    {
      var i := idxs[n];
      assert i in idxs && i !in idxs[..n] && idxs[..n + 1] == idxs[..n] + [i];
      var len := core.seqs[batch[i]].cached;
      var k := 0;
      while k < |keys| && keys[k] != len
        invariant 0 <= k <= |keys| && len !in keys[..k]
      {
        k := k + 1;
      }
      GroupsNext(core.View(), batch, idxs[..n], i, k);
      if k < |keys| {
        GroupedAdd(idxs[..n], groups, i, k);
        groups := groups[k := groups[k] + [i]];
      } else {
        GroupedNew(idxs[..n], groups, i);
        groups, keys := groups + [[i]], keys + [len];
      }
      n := n + 1;
    }
    assert idxs[..|idxs|] == idxs;
  }

  // ---------------------------------------------------------------- one member

  /** The batch so far is a run of the engine, and the results fit it. */
  ghost predicate Going(m: Model, e0: State, e: State, steps: seq<Step>, batch: seq<nat>, results: seq<Option<Token>>,
                        done: set<nat>) {
    During(m, e0, e, done) && e == Run(m, e0, steps) && Within(steps, batch) && ResultsOk(m, e0, batch, results, done)
  }

  lemma GoingPrepare(m: Model, e0: State, e: State, steps: seq<Step>, batch: seq<nat>, results: seq<Option<Token>>,
                     done: set<nat>, id: nat)
    requires Going(m, e0, e, steps, batch, results, done) && id in batch && id !in done
    requires Open(e0, id) && !FromLogits(e0.seqs[id])
    ensures Going(m, e0, DoPrepare(e, id), steps + [Prepare(id)], batch, results, done)
    ensures forall j :: j in e.seqs && j != id ==> j in DoPrepare(e, id).seqs && DoPrepare(e, id).seqs[j] == e.seqs[j]
  {
    hide During, DoPrepare, ResultsOk, Run, Good;
    OpenStays(m, e0, e, done, id);
    PrepareDuring(m, e0, e, done, id);
    RunSnoc(m, e0, steps, Prepare(id));
    GoodState(m, e0, e, done);
  }

  lemma GoodState(m: Model, e0: State, e: State, done: set<nat>)
    requires During(m, e0, e, done)
    ensures Good(m, e) && e.c.bs > 0
  {
    hide Good, ColdOk;
    GoodSize(m, e);
  }

  lemma GoingForward(m: Model, e0: State, e: State, steps: seq<Step>, batch: seq<nat>, results: seq<Option<Token>>,
                     done: set<nat>, i: nat)
    requires Going(m, e0, e, steps, batch, results, done) && NoDup(batch) && i < |batch| && batch[i] !in done
    requires Open(e0, batch[i]) && batch[i] in e.seqs && (FromLogits(e.seqs[batch[i]]) || e.seqs[batch[i]].ready)
    requires e.seqs[batch[i]].prompt != []
    ensures var e' := DoForward(m, e, batch[i]);
      && batch[i] in e'.seqs && e'.seqs[batch[i]].pending.Some?
      && |results| == |batch|
      && Going(m, e0, e', steps + [Forward(batch[i])], batch, results[i := e'.seqs[batch[i]].pending],
               done + {batch[i]})
      && forall j :: j in e.seqs && j != batch[i] ==> j in e'.seqs && e'.seqs[j] == e.seqs[j]
  {
    hide During, DoForward, ResultsOk, Run, Good, NoDup, Expected;
    var id := batch[i];
    OpenStays(m, e0, e, done, id);
    ForwardDuring(m, e0, e, done, id);
    RunSnoc(m, e0, steps, Forward(id));
    GoodState(m, e0, e, done);
    ResultsSize(m, e0, batch, results, done);
    ResultSet(m, e0, batch, results, done, i, DoForward(m, e, id).seqs[id].pending);
  }

  lemma ResultsSize(m: Model, e0: State, batch: seq<nat>, results: seq<Option<Token>>, done: set<nat>)
    requires ResultsOk(m, e0, batch, results, done)
    ensures |results| == |batch|
  {
  }

  lemma StarvedHere(m: Model, e0: State, e: State, done: set<nat>, id: nat)
    requires During(m, e0, e, done) && Open(e, id) && !FromLogits(e.seqs[id])
    requires id in DoPrepare(e, id).seqs && !DoPrepare(e, id).seqs[id].ready
    ensures Exhausted(DoPrepare(e, id).c)
  {
    hide Good, ColdOk, Balanced, DoPrepare, Exhausted;
    SoundBalanced(m, e);
    PrepareRefused(e, id);
  }

  method PrepareMember(core: EngineCore, batch: seq<nat>, i: nat, ghost e0: State, ghost steps0: seq<Step>,
                       ghost results: seq<Option<Token>>, ghost done: set<nat>)
    returns (ok: bool, ghost steps: seq<Step>)
    requires core.Valid() && Going(core.m, e0, core.View(), steps0, batch, results, done) && i < |batch|
    requires Open(e0, batch[i]) && !FromLogits(e0.seqs[batch[i]]) && batch[i] !in done
    modifies core, core.radix, core.radix.kv
    ensures core.Valid() && Going(core.m, e0, core.View(), steps, batch, results, done)
    ensures steps == steps0 + [Prepare(batch[i])]
    ensures if ok then batch[i] in core.seqs && core.seqs[batch[i]].ready else Starved(core.View(), steps)
    ensures forall j :: j in old(core.seqs) && j != batch[i] ==> j in core.seqs && core.seqs[j] == old(core.seqs[j])
  {
    hide During, DoPrepare, ResultsOk, Run, Shape, Rows2, Within, Exhausted;
    var id := batch[i];
    OpenStays(core.m, e0, core.View(), done, id);
    GoingPrepare(core.m, e0, core.View(), steps0, batch, results, done, id);
    ghost var before := core.View();
    core.Prepare(id);
    steps := steps0 + [Prepare(id)];
    OpenStays(core.m, e0, core.View(), done, id);
    ok := core.seqs[id].ready;
    if !ok {
      StarvedHere(core.m, e0, before, done, id);
    }
  }

  method ForwardMember(core: EngineCore, batch: seq<nat>, i: nat, results0: seq<Option<Token>>, ghost e0: State,
                       ghost steps0: seq<Step>, ghost done: set<nat>)
    returns (results: seq<Option<Token>>, ghost steps: seq<Step>)
    requires core.Valid() && Going(core.m, e0, core.View(), steps0, batch, results0, done) && i < |batch|
    requires NoDup(batch)
    requires Open(e0, batch[i]) && batch[i] !in done && batch[i] in core.seqs
    requires FromLogits(core.seqs[batch[i]]) || core.seqs[batch[i]].ready
    modifies core, core.radix.kv
    ensures core.Valid() && Going(core.m, e0, core.View(), steps, batch, results, done + {batch[i]})
    ensures steps == steps0 + [Forward(batch[i])]
    ensures forall j :: j in old(core.seqs) && j != batch[i] ==> j in core.seqs && core.seqs[j] == old(core.seqs[j])
  {
    hide During, DoForward, ResultsOk, Run, Shape, Rows2, Within, Expected, NoDup, TableOk, Good;
    var id := batch[i];
    OpenStays(core.m, e0, core.View(), done, id);
    GoodState(core.m, e0, core.View(), done);
    TableIsOk(core.m, core.View(), id);
    GoingForward(core.m, e0, core.View(), steps0, batch, results0, done, i);
    core.RunForward(id);
    steps := steps0 + [Forward(id)];
    results := results0[i := core.seqs[id].pending];
  }

  // ---------------------------------------------------------------- one group

  lemma TodoAt(e0: State, batch: seq<nat>, idxs: seq<nat>, done: set<nat>, n: nat)
    requires Todo(e0, batch, idxs, done) && n < |idxs|
    ensures idxs[n] < |batch| && Open(e0, batch[idxs[n]]) && !FromLogits(e0.seqs[batch[idxs[n]]])
    ensures batch[idxs[n]] !in done
  {
    assert idxs[n] in idxs;
  }

  lemma MembersNext(batch: seq<nat>, idxs: seq<nat>, n: nat)
    requires n < |idxs| && idxs[n] < |batch|
    ensures Members(batch, idxs[..n + 1]) == Members(batch, idxs[..n]) + {batch[idxs[n]]}
  {
    assert idxs[..n + 1] == idxs[..n] + [idxs[n]];
  }

  lemma NotYet(batch: seq<nat>, idxs: seq<nat>, n: nat, k: nat)
    requires NoDup(batch) && NoDup(idxs) && n <= k < |idxs| && idxs[k] < |batch|
    ensures batch[idxs[k]] !in Members(batch, idxs[..n])
  {
  }

  /** The steps taken are the planned ones; a batch that stops short stops for want of a page. */
  ghost predicate Followed(ok: bool, e: State, steps0: seq<Step>, steps: seq<Step>, plan: seq<Step>) {
    if ok then steps == steps0 + plan else steps <= steps0 + plan && Starved(e, steps)
  }

  lemma EachNext(batch: seq<nat>, idxs: seq<nat>, n: nat)
    requires n < |idxs| && idxs[n] < |batch|
    ensures Each(batch, idxs[..n + 1]) == Each(batch, idxs[..n]) + [Prepare(batch[idxs[n]]), Forward(batch[idxs[n]])]
  {
    assert idxs[..n + 1][..n] == idxs[..n];
  }

  lemma {:induction false} EachPrefix(batch: seq<nat>, idxs: seq<nat>, n: nat)
    requires n <= |idxs|
    ensures Each(batch, idxs[..n]) <= Each(batch, idxs)
    decreases |idxs|
  {
    if n == |idxs| {
      assert idxs[..n] == idxs;
    } else {
      EachPrefix(batch, idxs[..|idxs| - 1], n);
      assert idxs[..|idxs| - 1][..n] == idxs[..n];
    }
  }

  lemma PrefixAfter(a: seq<Step>, b: seq<Step>, c: seq<Step>)
    requires b <= c
    ensures a + b <= a + c
  {
  }

  lemma Joined3(a: seq<Step>, b: seq<Step>, c: seq<Step>)
    ensures (a + b) + c == a + (b + c)
  {
  }

  /** Members one after the other: pages, then forward. */
  method RunEach(core: EngineCore, batch: seq<nat>, group: seq<nat>, results0: seq<Option<Token>>, ghost e0: State,
                 ghost steps0: seq<Step>, ghost done: set<nat>)
    returns (ok: bool, results: seq<Option<Token>>, ghost steps: seq<Step>, ghost part: set<nat>)
    requires core.Valid() && Going(core.m, e0, core.View(), steps0, batch, results0, done) && NoDup(batch)
    requires Todo(e0, batch, group, done)
    modifies core, core.radix, core.radix.kv
    ensures core.Valid() && Going(core.m, e0, core.View(), steps, batch, results, part)
    ensures ok ==> part == done + Members(batch, group)
    ensures Followed(ok, core.View(), steps0, steps, Each(batch, group))
  {
    hide Going, Open, FromLogits, Shape, Rows2, NoDup, Each, Starved;
    results, steps, part, ok := results0, steps0, done, true;
    var n := 0;
    assert Each(batch, group[..0]) == [] by { NoEach(batch); }
    while n < |group|
      invariant 0 <= n <= |group| && core.Valid() && Going(core.m, e0, core.View(), steps, batch, results, part)
      invariant part == done + Members(batch, group[..n]) && steps == steps0 + Each(batch, group[..n])
    {
      TodoAt(e0, batch, group, done, n);
      NotYet(batch, group, n, n);
      MembersNext(batch, group, n);
      EachNext(batch, group, n);
      EachPrefix(batch, group, n + 1);
      ghost var plan := Each(batch, group[..n]);
      ok, steps := PrepareMember(core, batch, group[n], e0, steps, results, part);
      Joined3(steps0, plan, [Prepare(batch[group[n]])]);
      if !ok {
        PrefixAfter(steps0, plan + [Prepare(batch[group[n]])], Each(batch, group));
        return;
      }
      results, steps := ForwardMember(core, batch, group[n], results, e0, steps, part);
      part := part + {batch[group[n]]};
      assert steps == steps0 + Each(batch, group[..n + 1]);
      n := n + 1;
    }
    assert group[..|group|] == group;
  }

  lemma NoEach(batch: seq<nat>)
    ensures Each(batch, []) == []
  {
  }

  ghost predicate ReadyUpTo(seqs: map<nat, Seq>, batch: seq<nat>, group: seq<nat>, lo: nat, hi: nat) {
    forall k :: lo <= k < hi && k < |group| && group[k] < |batch| ==>
      batch[group[k]] in seqs && seqs[batch[group[k]]].ready
  }

  lemma ReadyKept(s: map<nat, Seq>, s': map<nat, Seq>, batch: seq<nat>, group: seq<nat>, lo: nat, hi: nat, k: nat)
    requires ReadyUpTo(s, batch, group, lo, hi) && NoDup(batch) && NoDup(group) && k < |group| && group[k] < |batch|
    requires forall j :: j in s && j != batch[group[k]] ==> j in s' && s'[j] == s[j]
    ensures k == hi && batch[group[k]] in s' && s'[batch[group[k]]].ready ==> ReadyUpTo(s', batch, group, lo, hi + 1)
    ensures k == lo ==> ReadyUpTo(s', batch, group, lo + 1, hi)
  {
  }

  /** Members together: pages for all of them, then one forward for all of them. */
  method RunTogether(core: EngineCore, batch: seq<nat>, group: seq<nat>, results0: seq<Option<Token>>, ghost e0: State,
                     ghost steps0: seq<Step>, ghost done: set<nat>)
    returns (ok: bool, results: seq<Option<Token>>, ghost steps: seq<Step>, ghost part: set<nat>)
    requires core.Valid() && Going(core.m, e0, core.View(), steps0, batch, results0, done) && NoDup(batch)
    requires Todo(e0, batch, group, done)
    modifies core, core.radix, core.radix.kv
    ensures core.Valid() && Going(core.m, e0, core.View(), steps, batch, results, part)
    ensures ok ==> part == done + Members(batch, group)
    ensures Followed(ok, core.View(), steps0, steps, Together(batch, group))
  {
    hide Going, Open, FromLogits, Shape, Rows2, NoDup, ReadyUpTo, Starved;
    results, steps, part, ok := results0, steps0, done, true;
    ReadyNone(core.seqs, batch, group);
    ghost var plan := Together(batch, group);
    var n := 0;
    while n < |group|
      invariant 0 <= n <= |group| && core.Valid() && Going(core.m, e0, core.View(), steps, batch, results, done)
      invariant ReadyUpTo(core.seqs, batch, group, 0, n)
      invariant steps == steps0 + plan[..n]
    {
      TodoAt(e0, batch, group, done, n);
      ghost var before := core.seqs;
      ok, steps := PrepareMember(core, batch, group[n], e0, steps, results, done);
      assert plan[..n + 1] == plan[..n] + [Prepare(batch[group[n]])];
      if !ok {
        return;
      }
      ReadyKept(before, core.seqs, batch, group, 0, n, n);
      n := n + 1;
    }
    n := 0;
    while n < |group|
      invariant 0 <= n <= |group| && core.Valid() && Going(core.m, e0, core.View(), steps, batch, results, part)
      invariant part == done + Members(batch, group[..n]) && ReadyUpTo(core.seqs, batch, group, n, |group|)
      invariant steps == steps0 + plan[..|group| + n]
    {
      TodoAt(e0, batch, group, done, n);
      NotYet(batch, group, n, n);
      MembersNext(batch, group, n);
      ReadyAt(core.seqs, batch, group, n);
      ghost var before := core.seqs;
      results, steps := ForwardMember(core, batch, group[n], results, e0, steps, part);
      assert plan[..|group| + n + 1] == plan[..|group| + n] + [Forward(batch[group[n]])];
      ReadyKept(before, core.seqs, batch, group, n, |group|, n);
      part := part + {batch[group[n]]};
      n := n + 1;
    }
    assert group[..|group|] == group && plan[..|plan|] == plan;
  }

  lemma ReadyNone(s: map<nat, Seq>, batch: seq<nat>, group: seq<nat>)
    ensures ReadyUpTo(s, batch, group, 0, 0)
  {
  }

  lemma ReadyAt(s: map<nat, Seq>, batch: seq<nat>, group: seq<nat>, n: nat)
    requires ReadyUpTo(s, batch, group, n, |group|) && n < |group| && group[n] < |batch|
    ensures batch[group[n]] in s && s[batch[group[n]]].ready
  {
  }

  /** _batch_prefill: together when all suffixes have one length, one by one otherwise. */
  method BatchPrefill(core: EngineCore, batch: seq<nat>, group: seq<nat>, results0: seq<Option<Token>>, ghost e0: State,
                      ghost steps0: seq<Step>, ghost done: set<nat>)
    returns (ok: bool, results: seq<Option<Token>>, ghost steps: seq<Step>, ghost part: set<nat>)
    requires core.Valid() && Going(core.m, e0, core.View(), steps0, batch, results0, done) && NoDup(batch)
    requires Todo(e0, batch, group, done) && group != []
    requires forall i :: i in group ==> i < |batch| && batch[i] in core.seqs
    modifies core, core.radix, core.radix.kv
    ensures core.Valid() && Going(core.m, e0, core.View(), steps, batch, results, part)
    ensures ok ==> part == done + Members(batch, group)
    ensures Followed(ok, core.View(), steps0, steps, GroupPlan(old(core.View()), batch, group, true))
  {
    hide Going, Shape, Rows2, NoDup, Todo, Starved, Each, Together;
    assert group[0] in group;
    var first := core.seqs[batch[group[0]]];
    var same := true;
    var n := 0;
    while n < |group| && same
      invariant 0 <= n <= |group|
      invariant same ==> forall k :: 0 <= k < n ==>
        && CachedOf(core.View(), batch, group[k]) == first.cached
        && PromptOf(core.View(), batch, group[k]) == |first.prompt|
      invariant !same ==> !SameSuffix(core.View(), batch, group)
    {
      assert group[n] in group;
      var s := core.seqs[batch[group[n]]];
      same := s.cached == first.cached && |s.prompt| == |first.prompt|;
      n := n + 1;
    }
    if same {
      ok, results, steps, part := RunTogether(core, batch, group, results0, e0, steps0, done);
    } else {
      ok, results, steps, part := RunEach(core, batch, group, results0, e0, steps0, done);
    }
  }

  // ---------------------------------------------------------------- the batch

  lemma TodoGroup(e0: State, batch: seq<nat>, idxs: seq<nat>, groups: seq<seq<nat>>, g: nat, done: set<nat>,
                  part: set<nat>)
    requires Todo(e0, batch, idxs, done) && Grouped(idxs, groups) && g < |groups| && NoDup(batch)
    requires part == done + GroupMembers(batch, groups, g)
    ensures Todo(e0, batch, groups[g], part) && groups[g] != []
  {
    hide Open, FromLogits, Grouped, Members, GroupMembers;
    GroupIn(idxs, groups, g);
    forall i | i in groups[g]
      ensures i in idxs && i < |batch| && batch[i] !in part
    {
      NotInEarlier(batch, groups, g, i, idxs);
    }
  }

  lemma GroupIn(idxs: seq<nat>, groups: seq<seq<nat>>, g: nat)
    requires Grouped(idxs, groups) && g < |groups|
    ensures NoDup(groups[g]) && groups[g] != [] && forall i :: i in groups[g] ==> i in idxs
  {
  }

  ghost function GroupMembers(batch: seq<nat>, groups: seq<seq<nat>>, g: nat): set<nat>
    requires g <= |groups|
  {
    if g == 0 then {} else GroupMembers(batch, groups, g - 1) + Members(batch, groups[g - 1])
  }

  lemma {:induction false} GroupMembersAre(batch: seq<nat>, groups: seq<seq<nat>>, g: nat, id: nat)
    requires g <= |groups|
    ensures id in GroupMembers(batch, groups, g) <==> exists h :: 0 <= h < g && id in Members(batch, groups[h])
    decreases g
  {
    if g > 0 {
      GroupMembersAre(batch, groups, g - 1, id);
    }
  }

  lemma NotInEarlier(batch: seq<nat>, groups: seq<seq<nat>>, g: nat, i: nat, idxs: seq<nat>)
    requires Grouped(idxs, groups) && g < |groups| && i in groups[g] && NoDup(batch) && i < |batch|
    ensures batch[i] !in GroupMembers(batch, groups, g)
  {
    GroupMembersAre(batch, groups, g, batch[i]);
    forall h | 0 <= h < g
      ensures batch[i] !in Members(batch, groups[h])
    {
      assert i !in groups[h];
    }
  }

  lemma AllMembers(batch: seq<nat>, idxs: seq<nat>, groups: seq<seq<nat>>)
    requires Grouped(idxs, groups)
    ensures GroupMembers(batch, groups, |groups|) == Members(batch, idxs)
  {
    forall id
      ensures id in GroupMembers(batch, groups, |groups|) <==> id in Members(batch, idxs)
    {
      GroupMembersAre(batch, groups, |groups|, id);
    }
  }

  /** Groups of one kind, in order of first appearance. */
  method RunGroups(core: EngineCore, batch: seq<nat>, idxs: seq<nat>, prefill: bool, results0: seq<Option<Token>>,
                   ghost e0: State, ghost steps0: seq<Step>, ghost done: set<nat>)
    returns (ok: bool, results: seq<Option<Token>>, ghost steps: seq<Step>, ghost part: set<nat>)
    requires core.Valid() && Going(core.m, e0, core.View(), steps0, batch, results0, done) && NoDup(batch)
    requires Todo(e0, batch, idxs, done)
    modifies core, core.radix, core.radix.kv
    ensures core.Valid() && Going(core.m, e0, core.View(), steps, batch, results, part)
    ensures ok ==> part == done + Members(batch, idxs)
    ensures Followed(ok, core.View(), steps0, steps, GroupsPlan(e0, batch, Groups(e0, batch, idxs), prefill))
  {
    hide Going, Shape, Rows2, NoDup, Todo, Grouped, Starved, GroupPlan, Groups;
    ok, results, steps, part := true, results0, steps0, done;
    TodoInState(core.m, e0, core.View(), steps, batch, results, done, idxs);
    TodoLengths(core.m, e0, core.View(), steps, batch, results, done, idxs);
    var groups, keys := GroupByCached(core, batch, idxs);
    GroupsSame(e0, core.View(), batch, idxs);
    var g := 0;
    while g < |groups|
      invariant 0 <= g <= |groups| && core.Valid() && Going(core.m, e0, core.View(), steps, batch, results, part)
      invariant part == done + GroupMembers(batch, groups, g)
      invariant steps == steps0 + GroupsPlan(e0, batch, groups[..g], prefill)
    {
      TodoGroup(e0, batch, idxs, groups, g, done, part);
      TodoInState(core.m, e0, core.View(), steps, batch, results, part, groups[g]);
      TodoLengths(core.m, e0, core.View(), steps, batch, results, part, groups[g]);
      PlanSame(e0, core.View(), batch, groups[g], prefill);
      PlanNext(e0, batch, groups, g, prefill);
      ghost var before := GroupsPlan(e0, batch, groups[..g], prefill);
      ghost var plan := GroupPlan(e0, batch, groups[g], prefill);
      if prefill {
        ok, results, steps, part := BatchPrefill(core, batch, groups[g], results, e0, steps, part);
      } else {
        TogetherPlan(e0, batch, groups[g]);
        ok, results, steps, part := RunTogether(core, batch, groups[g], results, e0, steps, part);
      }
      Joined3(steps0, before, plan);
      if !ok {
        PrefixAfter(steps0, before + plan, GroupsPlan(e0, batch, groups, prefill));
        return;
      }
      g := g + 1;
    }
    AllMembers(batch, idxs, groups);
    assert groups[..|groups|] == groups;
  }

  lemma TogetherPlan(e: State, batch: seq<nat>, group: seq<nat>)
    ensures GroupPlan(e, batch, group, false) == Together(batch, group)
  {
  }

  /** A plan looks at cached and prompt lengths only. */
  lemma PlanSame(e: State, e': State, batch: seq<nat>, group: seq<nat>, prefill: bool)
    requires forall i :: i in group ==>
      CachedOf(e', batch, i) == CachedOf(e, batch, i) && PromptOf(e', batch, i) == PromptOf(e, batch, i)
    ensures GroupPlan(e', batch, group, prefill) == GroupPlan(e, batch, group, prefill)
  {
    hide Each, Together;
    assert forall n :: 0 <= n < |group| ==> group[n] in group;
  }

  lemma PlanNext(e: State, batch: seq<nat>, groups: seq<seq<nat>>, g: nat, prefill: bool)
    requires g < |groups|
    ensures GroupsPlan(e, batch, groups[..g + 1], prefill)
         == GroupsPlan(e, batch, groups[..g], prefill) + GroupPlan(e, batch, groups[g], prefill)
    ensures GroupsPlan(e, batch, groups[..g], prefill) + GroupPlan(e, batch, groups[g], prefill)
         <= GroupsPlan(e, batch, groups, prefill)
  {
    hide GroupPlan;
    assert groups[..g + 1][..g] == groups[..g];
    PlanPrefix(e, batch, groups, g + 1, prefill);
  }

  lemma {:induction false} PlanPrefix(e: State, batch: seq<nat>, groups: seq<seq<nat>>, g: nat, prefill: bool)
    requires g <= |groups|
    ensures GroupsPlan(e, batch, groups[..g], prefill) <= GroupsPlan(e, batch, groups, prefill)
    decreases |groups|
  {
    hide GroupPlan;
    if g == |groups| {
      assert groups[..g] == groups;
    } else {
      PlanPrefix(e, batch, groups[..|groups| - 1], g, prefill);
      assert groups[..|groups| - 1][..g] == groups[..g];
    }
  }

  /** Members still to do have the lengths they came with. */
  lemma TodoLengths(m: Model, e0: State, e: State, steps: seq<Step>, batch: seq<nat>, results: seq<Option<Token>>,
                    done: set<nat>, idxs: seq<nat>)
    requires Going(m, e0, e, steps, batch, results, done) && Todo(e0, batch, idxs, done)
    ensures forall i :: i in idxs ==>
      && i < |batch| && batch[i] in e.seqs
      && CachedOf(e, batch, i) == CachedOf(e0, batch, i) && PromptOf(e, batch, i) == PromptOf(e0, batch, i)
  {
    hide Sound, Run, ResultsOk, Within;
  }

  lemma TodoInState(m: Model, e0: State, e: State, steps: seq<Step>, batch: seq<nat>, results: seq<Option<Token>>,
                    done: set<nat>, idxs: seq<nat>)
    requires Going(m, e0, e, steps, batch, results, done) && Todo(e0, batch, idxs, done)
    ensures NoDup(idxs) && forall i :: i in idxs ==> i < |batch| && batch[i] in e.seqs
  {
    hide Sound, Run, ResultsOk, Within;
  }

  /** What the batch may contain: distinct members with prompts and nothing undelivered. */
  ghost predicate Batchable(e: State, batch: seq<nat>, prefill: seq<bool>) {
    && NoDup(batch) && |prefill| == |batch|
    && forall i :: 0 <= i < |batch| ==>
         && batch[i] in e.seqs && e.seqs[batch[i]].pending.None? && e.seqs[batch[i]].prompt != []
         && (prefill[i] <==> NeedsPrefill(e.seqs[batch[i]]))
  }

  /** Members up to `n` that are served from stored logits. */
  ghost predicate Sorted(e0: State, batch: seq<nat>, n: nat, pre: seq<nat>, dec: seq<nat>, done: set<nat>) {
    && Todo(e0, batch, pre, done) && Todo(e0, batch, dec, done)
    && (forall i :: i in pre ==> i < n) && (forall i :: i in dec ==> i < n && i !in pre)
    && (forall id :: id in done ==> exists i :: 0 <= i < n && i < |batch| && batch[i] == id && Open(e0, id))
    && (forall i :: 0 <= i < n && i < |batch| && Open(e0, batch[i]) ==> batch[i] in done || i in pre || i in dec)
  }

  lemma NoDupSnoc(l: seq<nat>, n: nat)
    requires NoDup(l) && n !in l
    ensures NoDup(l + [n])
    ensures forall i :: i in l + [n] <==> i in l || i == n
  {
  }

  lemma NotDone(e0: State, batch: seq<nat>, n: nat, pre: seq<nat>, dec: seq<nat>, done: set<nat>)
    requires Sorted(e0, batch, n, pre, dec, done) && NoDup(batch) && n < |batch|
    ensures batch[n] !in done
  {
    hide Open, Todo;
    assert forall i :: 0 <= i < n ==> batch[i] != batch[n];
  }

  lemma SortedSkip(e0: State, batch: seq<nat>, n: nat, pre: seq<nat>, dec: seq<nat>, done: set<nat>)
    requires Sorted(e0, batch, n, pre, dec, done) && n < |batch| && !Open(e0, batch[n])
    ensures Sorted(e0, batch, n + 1, pre, dec, done)
  {
    hide Open, FromLogits, NoDup;
  }

  lemma SortedDone(e0: State, batch: seq<nat>, n: nat, pre: seq<nat>, dec: seq<nat>, done: set<nat>)
    requires Sorted(e0, batch, n, pre, dec, done) && NoDup(batch) && n < |batch| && Open(e0, batch[n])
    ensures Sorted(e0, batch, n + 1, pre, dec, done + {batch[n]})
  {
    hide Open, FromLogits;
    assert forall i :: i in pre || i in dec ==> batch[i] != batch[n];
  }

  lemma SortedPre(e0: State, batch: seq<nat>, n: nat, pre: seq<nat>, dec: seq<nat>, done: set<nat>)
    requires Sorted(e0, batch, n, pre, dec, done) && NoDup(batch) && n < |batch| && Open(e0, batch[n])
    requires !FromLogits(e0.seqs[batch[n]])
    ensures Sorted(e0, batch, n + 1, pre + [n], dec, done)
  {
    hide Open, FromLogits, NoDup;
    NotDone(e0, batch, n, pre, dec, done);
    NoDupSnoc(pre, n);
  }

  lemma SortedDec(e0: State, batch: seq<nat>, n: nat, pre: seq<nat>, dec: seq<nat>, done: set<nat>)
    requires Sorted(e0, batch, n, pre, dec, done) && NoDup(batch) && n < |batch| && Open(e0, batch[n])
    requires !FromLogits(e0.seqs[batch[n]])
    ensures Sorted(e0, batch, n + 1, pre, dec + [n], done)
  {
    hide Open, FromLogits, NoDup;
    NotDone(e0, batch, n, pre, dec, done);
    NoDupSnoc(dec, n);
  }

  /**
   run_batch.  It takes exactly the planned steps and gives every unfinished member the token
   that follows its own history, unless it stops at a member that finds the pool exhausted.
   */
  method RunBatch(core: EngineCore, batch: seq<nat>, prefill: seq<bool>)
    returns (ok: bool, results: seq<Option<Token>>, ghost steps: seq<Step>)
    requires core.Valid() && Sound(core.m, core.View()) && Batchable(core.View(), batch, prefill)
    modifies core, core.radix, core.radix.kv
    ensures core.Valid() && Sound(core.m, core.View())
    ensures core.View() == Run(core.m, old(core.View()), steps) && Within(steps, batch)
    ensures Followed(ok, core.View(), [], steps, BatchPlan(old(core.View()), batch, prefill))
    ensures ok ==> |results| == |batch| && forall i :: 0 <= i < |batch| ==>
      var s := old(core.View()).seqs[batch[i]];
      results[i] == if s.finished then None else Some(Expected(core.m, s))
    ensures SameMembers(old(core.View()), core.View()) && (ok ==> AllPending(core.View(), batch, results))
  {
    hide Going, Shape, Rows2, NoDup, Sound, Sorted, Run, Within, Expected, AllPending, SameMembers, Followed, Classed,
      GroupsPlan, Groups, BatchPlan, Todo;
    ghost var e0 := core.View();
    steps, ok := [], true;
    results := seq(|batch|, _ => None);
    ghost var done: set<nat> := {};
    var pre: seq<nat>, dec: seq<nat> := [], [];
    Begin(core.m, e0, batch, results);
    ClassedNone(e0, batch, prefill);
    var n := 0;
    while n < |batch|
      invariant 0 <= n <= |batch| && core.Valid() && Going(core.m, e0, core.View(), steps, batch, results, done)
      invariant Sorted(e0, batch, n, pre, dec, done) && Classed(e0, batch, prefill, n, steps, pre, dec)
    {
      var id := batch[n];
      MemberNow(core.m, e0, core.View(), steps, batch, results, done, n, pre, dec);
      ClassedNext(e0, batch, prefill, n, steps, pre, dec);
      var s := core.seqs[id];
      if s.finished {
        SortedSkip(e0, batch, n, pre, dec, done);
      } else if s.output == [] && s.logits.Some? && s.cached >= |s.prompt| {
        SortedDone(e0, batch, n, pre, dec, done);
        results, steps := ForwardMember(core, batch, n, results, e0, steps, done);
        done := done + {id};
      } else if prefill[n] && s.cached < |s.prompt| {
        SortedPre(e0, batch, n, pre, dec, done);
        pre := pre + [n];
      } else {
        SortedDec(e0, batch, n, pre, dec, done);
        dec := dec + [n];
      }
      n := n + 1;
    }
    ghost var part := done;
    SortedTodo(e0, batch, n, pre, dec, done);
    ClassedPlan(e0, batch, prefill, n, steps, pre, dec);
    ghost var a := steps;
    ghost var b := GroupsPlan(e0, batch, Groups(e0, batch, pre), true);
    ghost var c := GroupsPlan(e0, batch, Groups(e0, batch, dec), false);
    if pre != [] {
      ok, results, steps, part := RunGroups(core, batch, pre, true, results, e0, steps, done);
    } else {
      NoPlan(e0, batch, true);
      NothingToDo(core.View(), steps);
    }
    if ok {
      FirstDone(core.View(), a, b, steps);
      DecodesLeft(e0, batch, n, pre, dec, done);
      if dec != [] {
        ok, results, steps, part := RunGroups(core, batch, dec, false, results, e0, steps, part);
      } else {
        NoPlan(e0, batch, false);
        NothingToDo(core.View(), steps);
      }
      SecondDone(ok, core.View(), a, b, c, steps);
    } else {
      FirstStops(core.View(), a, b, c, steps);
    }
    Finish(core.m, e0, core.View(), steps, batch, results, part);
    if ok {
      Everyone(core.m, e0, core.View(), steps, batch, results, part, pre, dec, done, prefill);
      TokensPending(core.m, e0, core.View(), steps, batch, results, part);
    }
  }

  lemma NothingToDo(e: State, steps: seq<Step>)
    ensures Followed(true, e, steps, steps, [])
  {
  }

  lemma FirstDone(e: State, a: seq<Step>, b: seq<Step>, steps: seq<Step>)
    requires Followed(true, e, a, steps, b)
    ensures steps == a + b
  {
  }

  lemma FirstStops(e: State, a: seq<Step>, b: seq<Step>, c: seq<Step>, steps: seq<Step>)
    requires Followed(false, e, a, steps, b)
    ensures Followed(false, e, [], steps, a + b + c)
  {
    assert [] + (a + b + c) == a + b + c;
  }

  lemma SecondDone(ok: bool, e: State, a: seq<Step>, b: seq<Step>, c: seq<Step>, steps: seq<Step>)
    requires Followed(ok, e, a + b, steps, c)
    ensures Followed(ok, e, [], steps, a + b + c)
  {
    assert [] + (a + b + c) == a + b + c;
  }

  lemma NoPlan(e: State, batch: seq<nat>, prefill: bool)
    ensures GroupsPlan(e, batch, Groups(e, batch, []), prefill) == []
  {
  }

  /** The members seen so far, by kind, and the stored first tokens already sampled. */
  ghost predicate Classed(e0: State, batch: seq<nat>, prefill: seq<bool>, n: nat, steps: seq<Step>, pre: seq<nat>,
                          dec: seq<nat>) {
    && steps == Forwards(batch, OfKind(e0, batch, prefill, n, Stored))
    && pre == OfKind(e0, batch, prefill, n, Prefilling)
    && dec == OfKind(e0, batch, prefill, n, Kind.Decoding)
  }

  lemma ClassedNone(e0: State, batch: seq<nat>, prefill: seq<bool>)
    ensures Classed(e0, batch, prefill, 0, [], [], [])
  {
  }

  lemma ClassedNext(e0: State, batch: seq<nat>, prefill: seq<bool>, n: nat, steps: seq<Step>, pre: seq<nat>,
                    dec: seq<nat>)
    requires Classed(e0, batch, prefill, n, steps, pre, dec) && n < |batch| == |prefill| && batch[n] in e0.seqs
    ensures var s := e0.seqs[batch[n]];
      if s.finished then Classed(e0, batch, prefill, n + 1, steps, pre, dec)
      else if FromLogits(s) then Classed(e0, batch, prefill, n + 1, steps + [Forward(batch[n])], pre, dec)
      else if prefill[n] && NeedsPrefill(s) then Classed(e0, batch, prefill, n + 1, steps, pre + [n], dec)
      else Classed(e0, batch, prefill, n + 1, steps, pre, dec + [n])
  {
    var stored := OfKind(e0, batch, prefill, n, Stored);
    assert Forwards(batch, stored + [n]) == Forwards(batch, stored) + [Forward(Member(batch, n))];
  }

  lemma ClassedPlan(e0: State, batch: seq<nat>, prefill: seq<bool>, n: nat, steps: seq<Step>, pre: seq<nat>,
                    dec: seq<nat>)
    requires Classed(e0, batch, prefill, n, steps, pre, dec) && n == |batch|
    ensures BatchPlan(e0, batch, prefill)
         == steps + GroupsPlan(e0, batch, Groups(e0, batch, pre), true) + GroupsPlan(e0, batch, Groups(e0, batch, dec),
                                                                                     false)
  {
  }

  lemma Begin(m: Model, e0: State, batch: seq<nat>, results: seq<Option<Token>>)
    requires Sound(m, e0) && |results| == |batch| && forall i :: 0 <= i < |batch| ==> results[i] == None
    ensures Going(m, e0, e0, [], batch, results, {})
    ensures Sorted(e0, batch, 0, [], [], {})
  {
    hide Sound;
  }

  lemma MemberNow(m: Model, e0: State, e: State, steps: seq<Step>, batch: seq<nat>, results: seq<Option<Token>>,
                  done: set<nat>, n: nat, pre: seq<nat>, dec: seq<nat>)
    requires Going(m, e0, e, steps, batch, results, done) && Sorted(e0, batch, n, pre, dec, done) && NoDup(batch)
    requires n < |batch| && batch[n] in e0.seqs
    ensures batch[n] !in done && batch[n] in e.seqs && Untouched(e0.seqs[batch[n]], e.seqs[batch[n]])
  {
    hide Sound, Run, ResultsOk, Within, Sorted;
    NotDone(e0, batch, n, pre, dec, done);
  }

  lemma SortedTodo(e0: State, batch: seq<nat>, n: nat, pre: seq<nat>, dec: seq<nat>, done: set<nat>)
    requires Sorted(e0, batch, n, pre, dec, done)
    ensures Todo(e0, batch, pre, done) && Todo(e0, batch, dec, done)
    ensures pre == [] ==> done == done + Members(batch, pre)
  {
  }

  lemma DecodesLeft(e0: State, batch: seq<nat>, n: nat, pre: seq<nat>, dec: seq<nat>, done: set<nat>)
    requires Sorted(e0, batch, n, pre, dec, done) && NoDup(batch)
    ensures Todo(e0, batch, dec, done + Members(batch, pre))
  {
    hide Open, FromLogits;
    forall i | i in dec
      ensures batch[i] !in Members(batch, pre)
    {
      assert i !in pre;
    }
  }

  lemma Finish(m: Model, e0: State, e: State, steps: seq<Step>, batch: seq<nat>, results: seq<Option<Token>>,
               done: set<nat>)
    requires Going(m, e0, e, steps, batch, results, done)
    ensures Sound(m, e) && e == Run(m, e0, steps) && Within(steps, batch) && |results| == |batch| && SameMembers(e0, e)
  {
    hide Sound, Run, Within;
  }

  lemma Everyone(m: Model, e0: State, e: State, steps: seq<Step>, batch: seq<nat>, results: seq<Option<Token>>,
                 part: set<nat>, pre: seq<nat>, dec: seq<nat>, done: set<nat>, prefill: seq<bool>)
    requires Going(m, e0, e, steps, batch, results, part) && Batchable(e0, batch, prefill)
    requires Sorted(e0, batch, |batch|, pre, dec, done) && part == done + Members(batch, pre) + Members(batch, dec)
    ensures |results| == |batch| && forall i :: 0 <= i < |batch| ==>
      results[i] == if e0.seqs[batch[i]].finished then None else Some(Expected(m, e0.seqs[batch[i]]))
  {
    hide Sound, Run, Within, Expected, During, FromLogits;
    forall i | 0 <= i < |batch|
      ensures batch[i] in part <==> !e0.seqs[batch[i]].finished
    {
      if batch[i] in part {
        OnlyOpen(e0, batch, pre, dec, done, batch[i]);
      } else {
        assert !Open(e0, batch[i]);
      }
    }
  }

  lemma TokensPending(m: Model, e0: State, e: State, steps: seq<Step>, batch: seq<nat>, results: seq<Option<Token>>,
                      done: set<nat>)
    requires Going(m, e0, e, steps, batch, results, done) && forall i :: 0 <= i < |batch| ==> batch[i] in e0.seqs
    ensures AllPending(e, batch, results)
  {
    hide Sound, Run, Within, Expected;
  }

  lemma OnlyOpen(e0: State, batch: seq<nat>, pre: seq<nat>, dec: seq<nat>, done: set<nat>, id: nat)
    requires Sorted(e0, batch, |batch|, pre, dec, done) && id in done + Members(batch, pre) + Members(batch, dec)
    ensures Open(e0, id)
  {
  }
}
