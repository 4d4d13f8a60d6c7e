/**
 The gate in front of a captured decode graph: warm up, capture once, replay only against the
 buffers of the capture, start over when they change.
 */
module GraphGate {
  import opened Prelude

  /** Fixed decode buffers as the gate sees them: a generation and a capacity. */
  datatype Buffers = Buffers(gen: nat, cap: nat)

  datatype Result = Eager | Warmup | Captured | Refused | Replayed

  datatype Gate = Gate(
    captured: bool, capPages: int, capGen: int, warm: nat, disabled: bool,
    log: seq<Result>)           // results since the last reset

  const WARMUPS := 2

  const Cold := Gate(false, -1, -1, 0, false, [])

  function Reset(g: Gate): Gate {
    Gate(false, -1, -1, 0, g.disabled, [])
  }

  function Logged(g: Gate, r: Result): (Gate, Result) {
    (g.(log := g.log + [r]), r)
  }

  /** The captured graph no longer fits the buffers or the active pages. */
  predicate Stale(g: Gate, npages: int, maxPages: int, gen: int) {
    || npages > g.capPages > 0
    || (gen >= 0 && g.capGen >= 0 && gen != g.capGen)
    || (maxPages > 0 && g.capPages > 0 && maxPages != g.capPages)
  }

  /** maybe_run; `usable` stands for the mode and device tests, `ok` for the capture succeeding. */
  function MaybeRun(g: Gate, npages: int, maxPages: int, gen: int, usable: bool, ok: bool): (Gate, Result) {
    if !usable || g.disabled then Logged(g, Eager)
    else
      var g1 := if g.captured && Stale(g, npages, maxPages, gen) then Reset(g) else g;
      if g1.captured then Logged(g1, Replayed)
      else if g1.warm < WARMUPS then Logged(g1.(warm := g1.warm + 1), Warmup)
      else if ok then
        Logged(g1.(captured := true, capPages := if maxPages > 0 then maxPages else npages, capGen := gen), Captured)
      else (Reset(g1.(disabled := true)), Refused)
  }

  // ---------------------------------------------------------------- history of a graph

  function Busy(log: seq<Result>): (r: seq<Result>)
    ensures forall x :: x in r ==> x != Eager
  {
    if log == [] then []
    else
      var n := |log| - 1;
      if log[n] == Eager then Busy(log[..n]) else Busy(log[..n]) + [log[n]]
  }

  lemma BusySnoc(log: seq<Result>, r: Result)
    ensures Busy(log + [r]) == if r == Eager then Busy(log) else Busy(log) + [r]
  {
    assert (log + [r])[..|log|] == log;
  }

  /** Since the last reset: warmups up to the required number, then one capture, then replays. */
  ghost predicate Lifecycle(g: Gate) {
    var b := Busy(g.log);
    if !g.captured then
      g.warm <= WARMUPS && |b| == g.warm && forall i :: 0 <= i < |b| ==> b[i] == Warmup
    else
      && g.warm == WARMUPS && |b| > WARMUPS
      && (forall i :: 0 <= i < WARMUPS ==> b[i] == Warmup)
      && b[WARMUPS] == Captured
      && (forall i :: WARMUPS < i < |b| ==> b[i] == Replayed)
  }

  /** The graph was captured on buffers that existed then, and a capacity belongs to one generation. */
  ghost predicate Bound(g: Gate, b: Buffers) {
    g.captured ==> 0 < g.capGen <= b.gen && g.capPages > 0 && (g.capGen == b.gen ==> g.capPages == b.cap)
  }

  ghost predicate GateInv(g: Gate, b: Buffers) {
    Lifecycle(g) && Bound(g, b) && (b.gen > 0 ==> b.cap > 0)
  }

  lemma MaybeRunKeeps(g: Gate, b: Buffers, npages: nat, usable: bool, ok: bool)
    requires GateInv(g, b) && b.gen > 0
    ensures GateInv(MaybeRun(g, npages, b.cap, b.gen, usable, ok).0, b)
  {
    hide Busy;
    var g1 := if g.captured && Stale(g, npages, b.cap, b.gen) then Reset(g) else g;
    EmptyIsCold(g);
    if !usable || g.disabled {
      BusySnoc(g.log, Eager);
    } else if g1.captured {
      BusySnoc(g1.log, Replayed);
    } else if g1.warm < WARMUPS {
      BusySnoc(g1.log, Warmup);
    } else if ok {
      BusySnoc(g1.log, Captured);
    }
  }

  lemma EmptyIsCold(g: Gate)
    ensures Lifecycle(Reset(g))
  {
  }

  // ---------------------------------------------------------------- runs of forwards

  /** One decode forward with its page counts, or an explicit reset. */
  datatype Call = Forward(npages: nat, tableLen: nat, newCap: nat, usable: bool, ok: bool) | Drop

  datatype State = State(b: Buffers, g: Gate)

  /** Buffers are replaced, with a new generation, exactly when the table outgrows them. */
  function Grown(b: Buffers, need: nat, newCap: nat): (b': Buffers)
    ensures b'.gen > 0 && b'.cap >= need && b'.gen >= b.gen && (b'.gen == b.gen ==> b' == b)
    ensures (b.gen > 0 ==> b.cap > 0) ==> b'.cap > 0
  {
    if b.gen > 0 && b.cap >= need then b
    else Buffers(b.gen + 1, if newCap >= need && newCap >= 8 then newCap else need + 8)
  }

  function Apply(s: State, c: Call): (State, Result) {
    match c
    case Drop => (s.(g := Reset(s.g)), Eager)
    case Forward(npages, tableLen, newCap, usable, ok) =>
      var b := Grown(s.b, if npages > tableLen then npages else tableLen, newCap);
      var (g, r) := MaybeRun(s.g, npages, b.cap, b.gen, usable, ok);
      (State(b, g), r)
  }

  function RunTo(calls: seq<Call>, n: nat): State
    requires n <= |calls|
  {
    if n == 0 then State(Buffers(0, 0), Cold) else Apply(RunTo(calls, n - 1), calls[n - 1]).0
  }

  lemma {:induction false} RunKeeps(calls: seq<Call>, n: nat)
    requires n <= |calls|
    ensures GateInv(RunTo(calls, n).g, RunTo(calls, n).b)
    decreases n
  {
    if n > 0 {
      RunKeeps(calls, n - 1);
      var s := RunTo(calls, n - 1);
      match calls[n - 1] {
        case Drop =>
        case Forward(npages, tableLen, newCap, usable, ok) =>
          var b := Grown(s.b, if npages > tableLen then npages else tableLen, newCap);
          MaybeRunKeeps(s.g, b, npages, usable, ok);
      }
    }
  }

  /**
   Whenever a forward replays the graph, it does so on the buffer generation and capacity of the
   capture, with the active pages within that capacity, and since the last reset the graph went
   through the full warmup, one capture, and nothing but replays.
   */
  lemma ReplayIsSound(calls: seq<Call>, n: nat)
    requires n < |calls| && Apply(RunTo(calls, n), calls[n]).1 == Replayed
    ensures var s := RunTo(calls, n);
      var s' := Apply(s, calls[n]).0;
      && s'.b == s.b && s.g.captured
      && s.g.capGen == s'.b.gen && s.g.capPages == s'.b.cap && calls[n].npages <= s'.b.cap
      && var h := Busy(s.g.log);
         |h| > WARMUPS && h[0] == h[1] == Warmup && h[WARMUPS] == Captured
         && forall i :: WARMUPS < i < |h| ==> h[i] == Replayed
  {
    RunKeeps(calls, n);
  }

  // ---------------------------------------------------------------- when a capture is used

  /** The capture was made on these buffers, and the active pages fit it. */
  predicate Fits(g: Gate, npages: int, b: Buffers) {
    g.captured && g.capGen == b.gen && g.capPages == b.cap && npages <= g.capPages
  }

  /**
   A usable call on an enabled gate replays exactly when the gate holds a capture of these very
   buffers that the active pages fit.  A capture is forgotten exactly by such a call that it does
   not fit; a call that is not usable leaves the gate alone.
   */
  lemma CallExactly(g: Gate, b: Buffers, npages: nat, usable: bool, ok: bool)
    requires GateInv(g, b) && b.gen > 0
    ensures var (g', r) := MaybeRun(g, npages, b.cap, b.gen, usable, ok);
      && (r == Replayed <==> usable && !g.disabled && Fits(g, npages, b))
      && (g.captured ==> (g'.captured <==> !usable || g.disabled || Fits(g, npages, b)))
      && (g.captured ==> g'.disabled == g.disabled)
      && (g.captured && g'.captured ==> g'.capGen == g.capGen && g'.capPages == g.capPages && g'.warm == g.warm)
      && (!usable || g.disabled ==> r == Eager && g' == g.(log := g.log + [Eager]))
  {
    hide Lifecycle;
  }

  /** What a usable call on an enabled gate without a fitting capture does: warm up, capture, or give up. */
  lemma WarmupExactly(g: Gate, b: Buffers, npages: nat, ok: bool)
    requires GateInv(g, b) && b.gen > 0 && !g.disabled && !Fits(g, npages, b)
    ensures var (g', r) := MaybeRun(g, npages, b.cap, b.gen, true, ok);
      var done := if g.captured then 0 else g.warm;
      && (r == Warmup <==> done < 2) && (r == Warmup ==> !g'.captured && g'.warm == done + 1 && !g'.disabled)
      && (r == Captured <==> done >= 2 && ok) && (r == Captured ==> Fits(g', 0, b) && !g'.disabled)
      && (r == Refused <==> done >= 2 && !ok) && (r == Refused ==> !g'.captured && g'.disabled && g'.warm == 0)
  {
    hide Busy;
  }

  /** The same over runs: in every reachable state, with the buffers the call itself may replace. */
  lemma ReplayExactly(calls: seq<Call>, n: nat)
    requires n < |calls|
    ensures var s := RunTo(calls, n);
      var (s', r) := Apply(s, calls[n]);
      match calls[n]
      case Drop => !s'.g.captured
      case Forward(npages, tableLen, newCap, usable, ok) =>
        && (r == Replayed <==> usable && !s.g.disabled && Fits(s.g, npages, s'.b))
        && (s.g.captured ==> (s'.g.captured <==> !usable || s.g.disabled || Fits(s.g, npages, s'.b)))
        && (s'.b != s.b <==> s.b.gen == 0 || s.b.cap < npages || s.b.cap < tableLen)
  {
    RunKeeps(calls, n);
    match calls[n] {
      case Drop =>
      case Forward(npages, tableLen, newCap, usable, ok) =>
        var s := RunTo(calls, n);
        var b := Grown(s.b, if npages > tableLen then npages else tableLen, newCap);
        hide Lifecycle;
        CallExactly(s.g, b, npages, usable, ok);
    }
  }

  /** `n` usable calls on unchanged buffers from a gate that holds nothing. */
  function Calls(g: Gate, b: Buffers, pages: seq<nat>): (Gate, seq<Result>)
    decreases |pages|
  {
    if pages == [] then (g, [])
    else
      var n := |pages| - 1;
      var (g1, rs) := Calls(g, b, pages[..n]);
      var (g2, r) := MaybeRun(g1, pages[n], b.cap, b.gen, true, true);
      (g2, rs + [r])
  }

  /**
   The life of a graph: on unchanged buffers an enabled gate warms up twice, captures, and from
   then on replays every call, whatever its number of active pages within the capacity.
   */
  lemma {:induction false} ReplaysFromTheFourth(b: Buffers, pages: seq<nat>)
    requires b.gen > 0 && b.cap > 0 && forall i :: 0 <= i < |pages| ==> pages[i] <= b.cap
    ensures var (g, rs) := Calls(Cold, b, pages);
      && |rs| == |pages| && GateInv(g, b) && !g.disabled && (g.captured <==> |pages| >= 3)
      && (g.captured ==> Fits(g, 0, b)) && (!g.captured ==> g.warm == |pages|)
      && forall i :: 0 <= i < |pages| ==>
           rs[i] == if i < 2 then Warmup else if i == 2 then Captured else Replayed
    decreases |pages|
  {
    hide Lifecycle, MaybeRun;
    if pages == [] {
      ColdInv(b);
    } else {
      var n := |pages| - 1;
      ReplaysFromTheFourth(b, pages[..n]);
      var g := Calls(Cold, b, pages[..n]).0;
      MaybeRunKeeps(g, b, pages[n], true, true);
      CallExactly(g, b, pages[n], true, true);
      if !g.captured {
        WarmupExactly(g, b, pages[n], true);
      }
    }
  }

  lemma ColdInv(b: Buffers)
    requires b.cap > 0
    ensures GateInv(Cold, b)
  {
  }

  // ---------------------------------------------------------------- the object

  class PagedDecodeGraph {
    var captured: bool
    var capPages: int
    var capGen: int
    var warm: nat
    var disabled: bool
    ghost var log: seq<Result>

    ghost function View(): Gate
      reads this
    {
      Gate(captured, capPages, capGen, warm, disabled, log)
    }

    constructor ()
      ensures View() == Cold
    {
      captured, capPages, capGen, warm, disabled, log := false, -1, -1, 0, false, [];
    }

    method Restart()
      modifies this
      ensures View() == Reset(old(View()))
    {
      captured, capPages, capGen, warm, log := false, -1, -1, 0, [];
    }

    method Execute(npages: int, maxPages: int, gen: int, usable: bool, ok: bool) returns (r: Result)
      modifies this
      ensures (View(), r) == MaybeRun(old(View()), npages, maxPages, gen, usable, ok)
    {
      if !usable || disabled {
        log := log + [Eager];
        return Eager;
      }
      if captured {
        var overflow := npages > capPages > 0;
        var genMismatch := gen >= 0 && capGen >= 0 && gen != capGen;
        var capGrew := maxPages > 0 && capPages > 0 && maxPages != capPages;
        if overflow || genMismatch || capGrew {
          Restart();
        }
      }
      if !captured {
        if warm < WARMUPS {
          warm := warm + 1;
          log := log + [Warmup];
          return Warmup;
        }
        if !ok {
          disabled := true;
          Restart();
          return Refused;
        }
        captured, capPages, capGen := true, if maxPages > 0 then maxPages else npages, gen;
        log := log + [Captured];
        return Captured;
      }
      log := log + [Replayed];
      return Replayed;
    }
  }
}
