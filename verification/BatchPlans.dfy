/**
 The plan of a batch, stated on its members: who shares a forward, in which order, and that
 nobody's pages are prepared and nobody is forwarded more than once.
 */
module BatchPlans {
  import opened Prelude
  import opened PagePool
  import opened Engine
  import opened BatchRun

  // ---------------------------------------------------------------- subsequences

  lemma {:induction false} SubsequenceMore<T(!new)>(a: seq<T>, b: seq<T>, x: T)
    requires Subsequence(a, b)
    ensures Subsequence(a, b + [x]) && Subsequence(a + [x], b + [x])
    decreases |b|
  {
    var b' := b + [x];
    if b == [] {
      assert a == [] && (a + [x])[1..] == [] && b'[1..] == [];
    } else {
      assert b'[0] == b[0] && b'[1..] == b[1..] + [x];
      if a == [] {
        SubsequenceMore([], b[1..], x);
        if x == b[0] {
          EmptyFits(b'[1..]);
          assert ([] + [x])[1..] == [];
        }
        assert [] + [x] == [x];
      } else if a[0] == b[0] {
        assert (a + [x])[0] == a[0] && (a + [x])[1..] == a[1..] + [x];
        SubsequenceMore(a[1..], b[1..], x);
      } else {
        assert (a + [x])[0] == a[0];
        SubsequenceMore(a, b[1..], x);
      }
    }
  }

  lemma EmptyFits<T(!new)>(b: seq<T>)
    ensures Subsequence([], b)
  {
  }

  // ---------------------------------------------------------------- groups

  ghost function Firsts(groups: seq<seq<nat>>): (r: seq<nat>)
    requires forall g :: 0 <= g < |groups| ==> groups[g] != []
    ensures |r| == |groups|
  {
    seq(|groups|, g requires 0 <= g < |groups| => groups[g][0])
  }

  /** Every member is in a group, and a member of a group shares it with exactly its equals. */
  ghost predicate SharesByLength(e: State, batch: seq<nat>, idxs: seq<nat>, groups: seq<seq<nat>>) {
    && (forall i :: i in idxs ==> exists g :: 0 <= g < |groups| && i in groups[g])
    && (forall g, i, j :: 0 <= g < |groups| && i in groups[g] && j in idxs ==>
          (j in groups[g] <==> CachedOf(e, batch, j) == CachedOf(e, batch, i)))
  }

  /** Groups are in order of their first members, and each is in batch order. */
  ghost predicate InBatchOrder(idxs: seq<nat>, groups: seq<seq<nat>>) {
    && (forall g :: 0 <= g < |groups| ==> groups[g] != [] && Subsequence(groups[g], idxs))
    && Subsequence(Firsts(groups), idxs)
  }

  /** Two members are forwarded together exactly when their cached lengths are equal. */
  lemma {:induction false} GroupsExactly(e: State, batch: seq<nat>, idxs: seq<nat>)
    requires NoDup(idxs)
    ensures SharesByLength(e, batch, idxs, Groups(e, batch, idxs))
    ensures InBatchOrder(idxs, Groups(e, batch, idxs)) && Grouped(idxs, Groups(e, batch, idxs))
    decreases |idxs|
  {
    hide Groups, CachedOf, Keys, SharesByLength, InBatchOrder, Grouped;
    if idxs == [] {
      NoKeys(e, batch);
      GroupedNone();
      NoGroups(e, batch);
    } else {
      var n := |idxs| - 1;
      var before, i := idxs[..n], idxs[n];
      assert idxs == before + [i] && i !in before;
      GroupsExactly(e, batch, before);
      var gs, k := Groups(e, batch, before), KeyIndex(Keys(e, batch, before), CachedOf(e, batch, i));
      GroupsNext(e, batch, before, i, k);
      GroupLengths(e, batch, before);
      KeysDistinct(e, batch, before);
      if k < |gs| {
        JoinsGroup(e, batch, before, gs, i, k);
        GroupedAdd(before, gs, i, k);
      } else {
        NewGroup(e, batch, before, gs, i);
        GroupedNew(before, gs, i);
      }
    }
  }

  lemma {:induction false} LengthIs(e: State, batch: seq<nat>, idxs: seq<nat>, k: nat, x: nat)
    ensures x in OfLength(e, batch, idxs, k) <==> x in idxs && CachedOf(e, batch, x) == k
    decreases |idxs|
  {
    hide CachedOf;
    if idxs != [] {
      var n := |idxs| - 1;
      assert idxs == idxs[..n] + [idxs[n]];
      LengthIs(e, batch, idxs[..n], k, x);
    }
  }

  lemma GroupLengths(e: State, batch: seq<nat>, idxs: seq<nat>)
    ensures var gs, ks := Groups(e, batch, idxs), Keys(e, batch, idxs);
      |gs| == |ks| && forall g, x :: 0 <= g < |gs| && x in gs[g] ==> x in idxs && CachedOf(e, batch, x) == ks[g]
  {
    hide CachedOf, OfLength, Keys;
    var gs, ks := Groups(e, batch, idxs), Keys(e, batch, idxs);
    forall g, x | 0 <= g < |gs| && x in gs[g]
      ensures x in idxs && CachedOf(e, batch, x) == ks[g]
    {
      LengthIs(e, batch, idxs, ks[g], x);
    }
  }

  /** An index joins the group of its length. */
  lemma JoinsGroup(e: State, batch: seq<nat>, idxs: seq<nat>, gs: seq<seq<nat>>, i: nat, k: nat)
    requires SharesByLength(e, batch, idxs, gs) && InBatchOrder(idxs, gs) && i !in idxs && k < |gs|
    requires forall g, x :: 0 <= g < |gs| && x in gs[g] ==>
               x in idxs && (CachedOf(e, batch, x) == CachedOf(e, batch, i) <==> g == k)
    ensures SharesByLength(e, batch, idxs + [i], gs[k := gs[k] + [i]])
    ensures InBatchOrder(idxs + [i], gs[k := gs[k] + [i]])
  {
    hide CachedOf, Subsequence;
    var gs' := gs[k := gs[k] + [i]];
    assert Firsts(gs') == Firsts(gs);
    SubsequenceMore(Firsts(gs), idxs, i);
    forall g | 0 <= g < |gs'|
      ensures gs'[g] != [] && Subsequence(gs'[g], idxs + [i])
    {
      SubsequenceMore(gs[g], idxs, i);
    }
    forall x | x in idxs + [i]
      ensures exists g :: 0 <= g < |gs'| && x in gs'[g]
    {
      if x == i {
        assert x in gs'[k];
      } else {
        var g :| 0 <= g < |gs| && x in gs[g];
        assert x in gs'[g];
      }
    }
  }

  /** An index of a new length starts a group at the end. */
  lemma NewGroup(e: State, batch: seq<nat>, idxs: seq<nat>, gs: seq<seq<nat>>, i: nat)
    requires SharesByLength(e, batch, idxs, gs) && InBatchOrder(idxs, gs) && i !in idxs
    requires forall g, x :: 0 <= g < |gs| && x in gs[g] ==>
               x in idxs && CachedOf(e, batch, x) != CachedOf(e, batch, i)
    ensures SharesByLength(e, batch, idxs + [i], gs + [[i]]) && InBatchOrder(idxs + [i], gs + [[i]])
  {
    hide CachedOf, Subsequence;
    var gs' := gs + [[i]];
    assert Firsts(gs') == Firsts(gs) + [i];
    SubsequenceMore(Firsts(gs), idxs, i);
    EmptyFits(idxs);
    SubsequenceMore([], idxs, i);
    assert [] + [i] == [i];
    forall g | 0 <= g < |gs'|
      ensures gs'[g] != [] && Subsequence(gs'[g], idxs + [i])
    {
      if g < |gs| {
        SubsequenceMore(gs[g], idxs, i);
      }
    }
    forall x | x in idxs + [i]
      ensures exists g :: 0 <= g < |gs'| && x in gs'[g]
    {
      if x == i {
        assert x in gs'[|gs|];
      } else {
        var g :| 0 <= g < |gs| && x in gs[g];
        assert x in gs'[g];
      }
    }
  }

  ghost function KeyIndex(ks: seq<nat>, x: nat): (k: nat)
    ensures k <= |ks| && x !in ks[..k] && (k < |ks| ==> ks[k] == x)
  {
    if ks == [] || ks[0] == x then 0
    else
      var k := KeyIndex(ks[1..], x);
      assert ks[..k + 1] == [ks[0]] + ks[1..][..k];
      k + 1
  }

  lemma NoGroups(e: State, batch: seq<nat>)
    ensures SharesByLength(e, batch, [], []) && InBatchOrder([], [])
  {
  }

  // ---------------------------------------------------------------- each step once

  ghost function Flatten(groups: seq<seq<nat>>): seq<nat> {
    if groups == [] then [] else Flatten(groups[..|groups| - 1]) + groups[|groups| - 1]
  }

  lemma {:induction false} FlattenAdd(groups: seq<seq<nat>>, k: nat, i: nat)
    requires k < |groups|
    ensures multiset(Flatten(groups[k := groups[k] + [i]])) == multiset(Flatten(groups)) + multiset{i}
    decreases |groups|
  {
    var n, gs := |groups| - 1, groups[k := groups[k] + [i]];
    if k < n {
      FlattenAdd(groups[..n], k, i);
      assert gs[..n] == groups[..n][k := groups[..n][k] + [i]];
    } else {
      assert gs[..n] == groups[..n];
    }
  }

  /** Grouping loses no index and repeats none. */
  lemma {:induction false} GroupsKeepAll(e: State, batch: seq<nat>, idxs: seq<nat>)
    ensures multiset(Flatten(Groups(e, batch, idxs))) == multiset(idxs)
    decreases |idxs|
  {
    hide Groups, CachedOf, Keys;
    if idxs == [] {
      NoKeys(e, batch);
    } else {
      var n := |idxs| - 1;
      var before, i := idxs[..n], idxs[n];
      assert idxs == before + [i];
      GroupsKeepAll(e, batch, before);
      var gs, k := Groups(e, batch, before), KeyIndex(Keys(e, batch, before), CachedOf(e, batch, i));
      GroupsNext(e, batch, before, i, k);
      GroupLengths(e, batch, before);
      if k < |gs| {
        FlattenAdd(gs, k, i);
      } else {
        assert (gs + [[i]])[..|gs|] == gs;
      }
    }
  }

  lemma TogetherNext(batch: seq<nat>, idxs: seq<nat>, i: nat)
    ensures multiset(Together(batch, idxs + [i]))
         == multiset(Together(batch, idxs)) + multiset{Prepare(Member(batch, i)), Forward(Member(batch, i))}
  {
    hide Member;
    assert Prepares(batch, idxs + [i]) == Prepares(batch, idxs) + [Prepare(Member(batch, i))];
    assert Forwards(batch, idxs + [i]) == Forwards(batch, idxs) + [Forward(Member(batch, i))];
  }

  /** Both ways of running a group take the same steps. */
  lemma {:induction false} EachIsTogether(batch: seq<nat>, idxs: seq<nat>)
    ensures multiset(Each(batch, idxs)) == multiset(Together(batch, idxs))
    decreases |idxs|
  {
    hide Together, Member;
    if idxs == [] {
      NoSteps(batch);
    } else {
      var n := |idxs| - 1;
      assert idxs == idxs[..n] + [idxs[n]];
      EachIsTogether(batch, idxs[..n]);
      TogetherNext(batch, idxs[..n], idxs[n]);
    }
  }

  lemma NoSteps(batch: seq<nat>)
    ensures Together(batch, []) == []
  {
  }

  lemma {:induction false} TogetherJoins(batch: seq<nat>, a: seq<nat>, b: seq<nat>)
    ensures multiset(Together(batch, a + b)) == multiset(Together(batch, a)) + multiset(Together(batch, b))
    decreases |b|
  {
    hide Together, Member;
    if b == [] {
      NoSteps(batch);
      assert a + b == a;
    } else {
      var n := |b| - 1;
      assert a + b == (a + b[..n]) + [b[n]] && b == b[..n] + [b[n]];
      TogetherJoins(batch, a, b[..n]);
      TogetherNext(batch, a + b[..n], b[n]);
      TogetherNext(batch, b[..n], b[n]);
    }
  }

  lemma {:induction false} GroupsPlanSteps(e: State, batch: seq<nat>, groups: seq<seq<nat>>, prefill: bool)
    ensures multiset(GroupsPlan(e, batch, groups, prefill)) == multiset(Together(batch, Flatten(groups)))
    decreases |groups|
  {
    hide Together, Each, SameSuffix;
    if groups == [] {
      NoSteps(batch);
    } else {
      var n := |groups| - 1;
      GroupsPlanSteps(e, batch, groups[..n], prefill);
      EachIsTogether(batch, groups[n]);
      TogetherJoins(batch, Flatten(groups[..n]), groups[n]);
    }
  }

  lemma ForwardsNext(batch: seq<nat>, idxs: seq<nat>, i: nat)
    ensures Forwards(batch, idxs + [i]) == Forwards(batch, idxs) + [Forward(Member(batch, i))]
  {
  }

  /** How often a step of the member at `i` is taken. */
  lemma {:induction false} TogetherCounts(batch: seq<nat>, idxs: seq<nat>, i: nat)
    requires NoDup(batch) && i < |batch| && InRange(batch, idxs)
    ensures multiset(Together(batch, idxs))[Prepare(batch[i])] == multiset(idxs)[i]
    ensures multiset(Together(batch, idxs))[Forward(batch[i])] == multiset(idxs)[i]
    decreases |idxs|
  {
    hide Together, Member, InRange;
    if idxs == [] {
      NoSteps(batch);
    } else {
      var n := |idxs| - 1;
      assert idxs == idxs[..n] + [idxs[n]];
      SameMemberExactly(batch, idxs, i);
      TogetherCounts(batch, idxs[..n], i);
      TogetherNext(batch, idxs[..n], idxs[n]);
    }
  }

  lemma {:induction false} ForwardsCount(batch: seq<nat>, idxs: seq<nat>, i: nat)
    requires NoDup(batch) && i < |batch| && InRange(batch, idxs)
    ensures multiset(Forwards(batch, idxs))[Forward(batch[i])] == multiset(idxs)[i]
    ensures multiset(Forwards(batch, idxs))[Prepare(batch[i])] == 0
    decreases |idxs|
  {
    hide Forwards, Member, InRange;
    if idxs != [] {
      var n := |idxs| - 1;
      assert idxs == idxs[..n] + [idxs[n]];
      SameMemberExactly(batch, idxs, i);
      ForwardsCount(batch, idxs[..n], i);
      ForwardsNext(batch, idxs[..n], idxs[n]);
    }
  }

  ghost predicate InRange(batch: seq<nat>, idxs: seq<nat>) {
    forall x :: x in idxs ==> x < |batch|
  }

  lemma SameMemberExactly(batch: seq<nat>, idxs: seq<nat>, i: nat)
    requires NoDup(batch) && i < |batch| && InRange(batch, idxs) && idxs != []
    ensures InRange(batch, idxs[..|idxs| - 1])
    ensures Member(batch, idxs[|idxs| - 1]) == batch[i] <==> idxs[|idxs| - 1] == i
  {
    assert idxs[|idxs| - 1] in idxs;
    var before := idxs[..|idxs| - 1];
    forall y | y in before
      ensures y < |batch|
    {
      assert y in idxs;
    }
  }

  lemma KindNext(e: State, batch: seq<nat>, prefill: seq<bool>, n: nat, kind: Kind)
    requires n > 0
    ensures OfKind(e, batch, prefill, n, kind) == OfKind(e, batch, prefill, n - 1, kind)
              + if KindOf(e, batch, prefill, n - 1) == kind then [n - 1] else []
  {
  }

  lemma {:induction false} KindCounts(e: State, batch: seq<nat>, prefill: seq<bool>, n: nat, kind: Kind, i: nat)
    requires n <= |batch|
    ensures multiset(OfKind(e, batch, prefill, n, kind))[i]
         == if i < n && KindOf(e, batch, prefill, i) == kind then 1 else 0
    ensures InRange(batch, OfKind(e, batch, prefill, n, kind))
    decreases n
  {
    hide KindOf, OfKind;
    if n == 0 {
      NoKind(e, batch, prefill, kind);
    } else {
      KindNext(e, batch, prefill, n, kind);
      KindCounts(e, batch, prefill, n - 1, kind, i);
      var l := OfKind(e, batch, prefill, n - 1, kind);
      if KindOf(e, batch, prefill, n - 1) == kind {
        assert OfKind(e, batch, prefill, n, kind) == l + [n - 1];
        assert multiset(l + [n - 1])[i] == multiset(l)[i] + multiset([n - 1])[i];
      } else {
        assert OfKind(e, batch, prefill, n, kind) == l;
      }
    }
  }

  lemma NoKind(e: State, batch: seq<nat>, prefill: seq<bool>, kind: Kind)
    ensures OfKind(e, batch, prefill, 0, kind) == []
  {
  }

  lemma GroupsCount(e: State, batch: seq<nat>, idxs: seq<nat>, prefill: bool, i: nat)
    requires NoDup(batch) && i < |batch| && InRange(batch, idxs)
    ensures var plan := multiset(GroupsPlan(e, batch, Groups(e, batch, idxs), prefill));
      plan[Prepare(batch[i])] == multiset(idxs)[i] && plan[Forward(batch[i])] == multiset(idxs)[i]
  {
    hide Groups, GroupsPlan, Together;
    var flat := Flatten(Groups(e, batch, idxs));
    GroupsKeepAll(e, batch, idxs);
    GroupsPlanSteps(e, batch, Groups(e, batch, idxs), prefill);
    forall x | x in flat
      ensures x < |batch|
    {
      assert x in multiset(flat) && x in multiset(idxs);
      assert x in idxs;
    }
    TogetherCounts(batch, flat, i);
  }

  /**
   Every unfinished member is forwarded exactly once; its pages are prepared exactly once, unless
   its first token comes from stored logits; a finished member takes no step.
   */
  lemma PlanTakesEachOnce(e: State, batch: seq<nat>, prefill: seq<bool>, i: nat)
    requires NoDup(batch) && |prefill| == |batch| && i < |batch| && batch[i] in e.seqs
    ensures var plan, s := multiset(BatchPlan(e, batch, prefill)), e.seqs[batch[i]];
      && plan[Forward(batch[i])] == (if s.finished then 0 else 1)
      && plan[Prepare(batch[i])] == (if s.finished || FromLogits(s) then 0 else 1)
  {
    hide Groups, GroupsPlan, OfKind, Forwards;
    var n := |batch|;
    var stored := OfKind(e, batch, prefill, n, Stored);
    var pre := OfKind(e, batch, prefill, n, Prefilling);
    var dec := OfKind(e, batch, prefill, n, Kind.Decoding);
    KindCounts(e, batch, prefill, n, Stored, i);
    KindCounts(e, batch, prefill, n, Prefilling, i);
    KindCounts(e, batch, prefill, n, Kind.Decoding, i);
    ForwardsCount(batch, stored, i);
    GroupsCount(e, batch, pre, true, i);
    GroupsCount(e, batch, dec, false, i);
  }
}
