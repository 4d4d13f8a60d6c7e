/**
 Mixture-of-experts dispatch over tensor-parallel ranks: each rank runs the activated experts of
 its own range, and the partial sums are added up.
 */
module MoeDispatch {
  import opened Prelude

  // ---------------------------------------------------------------- placement

  datatype Plan = Plan(world: nat, rank: nat, experts: nat, local: nat, start: nat, end: nat)

  datatype PlanResult = Planned(plan: Plan) | Rejected(reason: string)

  /** Equal consecutive ranges of experts, one per rank. */
  function BuildPlan(world: int, rank: int, experts: nat): PlanResult {
    if world <= 0 then Rejected("world_size must be > 0")
    else if !(0 <= rank < world) then Rejected("rank out of range")
    else if experts % world != 0 then Rejected("n_experts must be divisible by world_size")
    else
      Planned(Plan(world, rank, experts, experts / world, rank * (experts / world), (rank + 1) * (experts / world)))
  }

  lemma {:induction false} StartIsProduct(k: nat, n: nat)
    ensures Multiple(k, n) == k * n
    decreases k
  {
    if k > 0 {
      StartIsProduct(k - 1, n);
      assert k * n == (k - 1) * n + n;
    }
  }

  lemma PlanRange(world: nat, rank: nat, experts: nat)
    requires 0 < world && rank < world && experts % world == 0
    ensures BuildPlan(world, rank, experts) == Planned(Plan(world, rank, experts, experts / world,
              Multiple(rank, experts / world), Multiple(rank + 1, experts / world)))
    ensures Multiple(world, experts / world) == experts
  {
    StartIsProduct(rank, experts / world);
    StartIsProduct(rank + 1, experts / world);
    StartIsProduct(world, experts / world);
  }

  /** A plan exists exactly for a rank of the world and a divisible expert count. */
  lemma PlannedExactly(world: int, rank: int, experts: nat)
    ensures BuildPlan(world, rank, experts).Planned? <==> 0 <= rank < world && experts % world == 0
  {
  }

  /** Every expert belongs to the range of some rank. */
  lemma SomeRank(world: nat, experts: nat, e: nat)
    requires 0 < world && experts % world == 0 && e < experts
    ensures exists rank: nat :: rank < world && Within(world, rank, experts, e)
  {
    hide BuildPlan;
    var local := experts / world;
    PlanRange(world, 0, experts);
    assert local > 0 by {
      StartIsProduct(world, 0);
    }
    var rank := PageOf(e, local);
    Recompose(e, local);
    if rank >= world {
      StartMono(world, rank, local);
    }
    PlanRange(world, rank, experts);
    assert Within(world, rank, experts, e);
  }

  /** No expert belongs to two ranks. */
  lemma OneRank(world: nat, experts: nat, e: nat, r: nat, s: nat)
    requires r < world && s < world && Within(world, r, experts, e) && Within(world, s, experts, e)
    ensures r == s
  {
    PlannedExactly(world, r, experts);
    PlanRange(world, r, experts);
    PlanRange(world, s, experts);
    if r < s {
      StartMono(r + 1, s, experts / world);
    } else if s < r {
      StartMono(s + 1, r, experts / world);
    }
  }

  predicate Within(world: nat, rank: nat, experts: nat, e: nat) {
    var p := BuildPlan(world, rank, experts);
    p.Planned? && p.plan.start <= e < p.plan.end
  }

  // ---------------------------------------------------------------- routing

  type Expert = (nat, nat, real) -> real     // token, expert, routing weight

  /** Position of the last column that routes to `e`, or the length. */
  function LastOf(row: seq<nat>, e: nat): (k: nat)
    ensures k <= |row| && (k < |row| <==> e in row) && (k < |row| ==> row[k] == e)
  {
    if row == [] then 0
    else
      var n := |row| - 1;
      assert row == row[..n] + [row[n]];
      var k := LastOf(row[..n], e);
      if row[n] == e then n else if k < n then k else |row|
  }

  /** What expert `e` adds to one token: an indexed `+=` keeps one term per token. */
  function Term(f: Expert, t: nat, row: seq<nat>, w: seq<real>, e: nat): real
    requires |row| == |w|
  {
    if e in row then f(t, e, w[LastOf(row, e)]) else 0.0
  }

  /** Sum over the experts `[lo, hi)`. */
  function RangeSum(f: Expert, t: nat, row: seq<nat>, w: seq<real>, lo: nat, hi: nat): real
    requires |row| == |w| && lo <= hi
  {
    if lo == hi then 0.0 else RangeSum(f, t, row, w, lo, hi - 1) + Term(f, t, row, w, hi - 1)
  }

  /** Sum over all routed columns. */
  function Dense(f: Expert, t: nat, row: seq<nat>, w: seq<real>): real
    requires |row| == |w|
  {
    if row == [] then 0.0
    else
      var n := |row| - 1;
      Dense(f, t, row[..n], w[..n]) + f(t, row[n], w[n])
  }

  /** Sum over ranks of what each computes for its own range. */
  function AllReduce(f: Expert, t: nat, row: seq<nat>, w: seq<real>, local: nat, ranks: nat): real
    requires |row| == |w|
  {
    if ranks == 0 then 0.0
    else
      var mine := RangeSum(f, t, row, w, Multiple(ranks - 1, local), Multiple(ranks, local));
      AllReduce(f, t, row, w, local, ranks - 1) + mine
  }

  lemma {:induction false} SumSplit(f: Expert, t: nat, row: seq<nat>, w: seq<real>, lo: nat, mid: nat, hi: nat)
    requires |row| == |w| && lo <= mid <= hi
    ensures RangeSum(f, t, row, w, lo, hi) == RangeSum(f, t, row, w, lo, mid) + RangeSum(f, t, row, w, mid, hi)
    decreases hi
  {
    if mid < hi {
      SumSplit(f, t, row, w, lo, mid, hi - 1);
    }
  }

  lemma {:induction false} ReduceIsRange(f: Expert, t: nat, row: seq<nat>, w: seq<real>, local: nat, ranks: nat)
    requires |row| == |w|
    ensures AllReduce(f, t, row, w, local, ranks) == RangeSum(f, t, row, w, 0, Multiple(ranks, local))
    decreases ranks
  {
    if ranks > 0 {
      ReduceIsRange(f, t, row, w, local, ranks - 1);
      SumSplit(f, t, row, w, 0, Multiple(ranks - 1, local), Multiple(ranks, local));
    }
  }

  /** A column that routes to a new expert adds its own term and changes no other. */
  lemma {:induction false} SumSnoc(f: Expert, t: nat, row: seq<nat>, w: seq<real>, e: nat, x: real, hi: nat)
    requires |row| == |w| && e !in row
    ensures RangeSum(f, t, row + [e], w + [x], 0, hi)
         == RangeSum(f, t, row, w, 0, hi) + if e < hi then f(t, e, x) else 0.0
    decreases hi
  {
    if hi > 0 {
      SumSnoc(f, t, row, w, e, x, hi - 1);
      var row' := row + [e];
      assert row'[..|row|] == row;
      assert hi - 1 in row' <==> hi - 1 in row || hi - 1 == e;
    }
  }

  lemma {:induction false} RangeIsDense(f: Expert, t: nat, row: seq<nat>, w: seq<real>, experts: nat)
    requires |row| == |w| && NoDup(row) && forall e :: e in row ==> e < experts
    ensures RangeSum(f, t, row, w, 0, experts) == Dense(f, t, row, w)
    decreases |row|
  {
    if row == [] {
      NothingRouted(f, t, w, 0, experts);
    } else {
      var n := |row| - 1;
      assert row == row[..n] + [row[n]] && w == w[..n] + [w[n]];
      assert row[n] in row && forall e :: e in row[..n] ==> e in row;
      RangeIsDense(f, t, row[..n], w[..n], experts);
      SumSnoc(f, t, row[..n], w[..n], row[n], w[n], experts);
    }
  }

  lemma {:induction false} NothingRouted(f: Expert, t: nat, w: seq<real>, lo: nat, hi: nat)
    requires w == [] && lo <= hi
    ensures RangeSum(f, t, [], w, lo, hi) == 0.0
    decreases hi
  {
    if lo < hi {
      NothingRouted(f, t, w, lo, hi - 1);
    }
  }

  /**
   Summing over all ranks the loop restricted to activated local experts gives the dense sum:
   each routed (token, expert) pair is counted exactly once, on the rank that holds the expert.
   */
  lemma RanksSumToDense(f: Expert, t: nat, row: seq<nat>, w: seq<real>, world: nat, experts: nat)
    requires 0 < world && experts % world == 0
    requires |row| == |w| && NoDup(row) && forall e :: e in row ==> e < experts
    ensures AllReduce(f, t, row, w, experts / world, world) == Dense(f, t, row, w)
  {
    PlanRange(world, 0, experts);
    ReduceIsRange(f, t, row, w, experts / world, world);
    RangeIsDense(f, t, row, w, experts);
  }

  /** With unit contributions the ranks count distinct experts, the dense sum counts columns. */
  lemma {:induction false} UnitDense(t: nat, row: seq<nat>, w: seq<real>)
    requires |row| == |w|
    ensures Dense((_, _, _) => 1.0, t, row, w) == |row| as real
    decreases |row|
  {
    if row != [] {
      UnitDense(t, row[..|row| - 1], w[..|row| - 1]);
    }
  }

  ghost function Below(row: seq<nat>, hi: nat): set<nat> {
    set e | e in row && e < hi
  }

  lemma {:induction false} UnitRange(t: nat, row: seq<nat>, w: seq<real>, hi: nat)
    requires |row| == |w|
    ensures RangeSum((_, _, _) => 1.0, t, row, w, 0, hi) == |Below(row, hi)| as real
    decreases hi
  {
    if hi > 0 {
      UnitRange(t, row, w, hi - 1);
      if hi - 1 in row {
        assert Below(row, hi) == Below(row, hi - 1) + {hi - 1};
      } else {
        assert Below(row, hi) == Below(row, hi - 1);
      }
    } else {
      assert Below(row, hi) == {};
    }
  }

  lemma {:induction false} DistinctCount(row: seq<nat>, s: set<nat>)
    requires forall e :: e in s <==> e in row
    ensures |s| <= |row| && (|s| == |row| <==> NoDup(row))
    decreases |row|
  {
    if row != [] {
      var n := |row| - 1;
      assert row == row[..n] + [row[n]];
      if row[n] in row[..n] {
        DistinctCount(row[..n], s);
        var i :| 0 <= i < n && row[..n][i] == row[n];
        assert row[i] == row[n];
      } else {
        DistinctCount(row[..n], s - {row[n]});
        assert NoDup(row[..n]) ==> NoDup(row);
      }
    } else {
      assert s == {};
    }
  }

  /**
   Every routed pair is counted once exactly when the row routes to distinct experts: of equal
   columns only the last survives the indexed addition.
   */
  lemma CountedOnceExactly(t: nat, row: seq<nat>, w: seq<real>, world: nat, experts: nat)
    requires 0 < world && experts % world == 0
    requires |row| == |w| && forall e :: e in row ==> e < experts
    ensures var unit: Expert := (_, _, _) => 1.0;
      AllReduce(unit, t, row, w, experts / world, world) == Dense(unit, t, row, w) <==> NoDup(row)
  {
    PlanRange(world, 0, experts);
    ReduceIsRange((_, _, _) => 1.0, t, row, w, experts / world, world);
    UnitRange(t, row, w, experts);
    UnitDense(t, row, w);
    DistinctCount(row, Below(row, experts));
  }

  // ---------------------------------------------------------------- the loop of one rank

  ghost predicate Routing(indices: seq<seq<nat>>, weights: seq<seq<real>>) {
    |indices| == |weights| && forall t :: 0 <= t < |indices| ==> |indices[t]| == |weights[t]|
  }

  /** The activated experts in increasing order. */
  ghost predicate Activated(uniq: seq<nat>, indices: seq<seq<nat>>) {
    && (forall i, j :: 0 <= i < j < |uniq| ==> uniq[i] < uniq[j])
    && (forall t, e :: 0 <= t < |indices| && e in indices[t] ==> e in uniq)
  }

  lemma {:induction false} IdleRange(f: Expert, t: nat, row: seq<nat>, w: seq<real>, lo: nat, mid: nat, hi: nat)
    requires |row| == |w| && lo <= mid <= hi && forall e :: mid <= e < hi ==> e !in row
    ensures RangeSum(f, t, row, w, lo, hi) == RangeSum(f, t, row, w, lo, mid)
    decreases hi
  {
    if mid < hi {
      IdleRange(f, t, row, w, lo, mid, hi - 1);
    }
  }

  function Clamp(x: nat, lo: nat, hi: nat): (r: nat)
    requires lo <= hi
    ensures lo <= r <= hi
  {
    if x < lo then lo else if x > hi then hi else x
  }

  /** Adds the terms of one expert to the tokens routed to it. */
  method AddExpert(f: Expert, indices: seq<seq<nat>>, weights: seq<seq<real>>, e: nat, y: array<real>)
    requires Routing(indices, weights) && y.Length == |indices|
    modifies y
    ensures forall t :: 0 <= t < y.Length ==> y[t] == old(y[t]) + Term(f, t, indices[t], weights[t], e)
  {
    forall t | 0 <= t < y.Length {
      y[t] := y[t] + Term(f, t, indices[t], weights[t], e);
    }
  }

  /** One rank: only activated experts of its own range are run. */
  method RankForward(f: Expert, indices: seq<seq<nat>>, weights: seq<seq<real>>, uniq: seq<nat>, start: nat, end: nat)
    returns (y: array<real>)
    requires Routing(indices, weights) && Activated(uniq, indices) && start <= end
    ensures y.Length == |indices|
    ensures forall t :: 0 <= t < |indices| ==> y[t] == RangeSum(f, t, indices[t], weights[t], start, end)
  {
    y := new real[|indices|](_ => 0.0);
    var i := 0;
    ghost var b := start;
    while i < |uniq|
      invariant 0 <= i <= |uniq| && y.Length == |indices| && fresh(y)
      invariant b == if i == 0 then start else Clamp(uniq[i - 1] + 1, start, end)
      invariant forall t :: 0 <= t < |indices| ==> y[t] == RangeSum(f, t, indices[t], weights[t], start, b)
    {
      var e := uniq[i];
      ghost var b' := Clamp(e + 1, start, end);
      if start <= e < end {
        forall t | 0 <= t < |indices|
          ensures RangeSum(f, t, indices[t], weights[t], start, b') == y[t] + Term(f, t, indices[t], weights[t], e)
        {
          Gap(indices, uniq, i, b, e, t);
          IdleRange(f, t, indices[t], weights[t], start, b, e);
        }
        AddExpert(f, indices, weights, e, y);
      } else {
        forall t | 0 <= t < |indices|
          ensures RangeSum(f, t, indices[t], weights[t], start, b') == y[t]
        {
          Gap(indices, uniq, i, b, b', t);
          IdleRange(f, t, indices[t], weights[t], start, b, b');
        }
      }
      b := b';
      i := i + 1;
    }
    forall t | 0 <= t < |indices|
      ensures RangeSum(f, t, indices[t], weights[t], start, end) == y[t]
    {
      Gap(indices, uniq, |uniq|, b, end, t);
      IdleRange(f, t, indices[t], weights[t], start, b, end);
    }
  }

  /** No expert between two consecutive activated ones is routed to. */
  lemma Gap(indices: seq<seq<nat>>, uniq: seq<nat>, i: nat, b: nat, hi: nat, t: nat)
    requires Activated(uniq, indices) && i <= |uniq| && t < |indices|
    requires i > 0 ==> b > uniq[i - 1] || b >= hi
    requires i < |uniq| ==> hi <= uniq[i] || b >= hi
    ensures forall e :: b <= e < hi ==> e !in indices[t]
  {
    forall j | 0 <= j < |uniq| && b < hi
      ensures uniq[j] < b || hi <= uniq[j]
    {
      assert j < i ==> uniq[j] <= uniq[i - 1];
      assert j >= i ==> uniq[i] <= uniq[j];
    }
    forall e: nat | b <= e < hi
      ensures e !in indices[t]
    {
      assert e !in uniq;
    }
  }
}
