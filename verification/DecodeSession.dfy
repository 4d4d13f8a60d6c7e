/**
 Decode buffers and the graph gate together: a graph is replayed only while the kernels still
 read the very buffer it was captured on.
 */
module DecodeSession {
  import opened Prelude
  import opened DecodeMeta
  import opened GraphGate

  class Session {
    const buffers: DecodeBuffers
    const graph: PagedDecodeGraph
    ghost var seen: array<nat>          // page buffer the capture read

    ghost predicate Valid()
      reads this, buffers, buffers.pageIndices, buffers.kvIndices, graph
    {
      && buffers.Valid() && (buffers.gen > 0 ==> buffers.cap > 0)
      && GateInv(graph.View(), Buffers(buffers.gen, buffers.cap))
      && (graph.captured && graph.capGen == buffers.gen ==> seen == buffers.pageIndices)
    }

    constructor (ceiling: nat)
      ensures Valid() && buffers.gen == 0 && !graph.captured
      ensures fresh(buffers) && fresh(graph) && fresh(buffers.pageIndices) && fresh(buffers.kvIndices)
    {
      buffers := new DecodeBuffers(ceiling);
      graph := new PagedDecodeGraph();
      seen := new nat[0];
      new;
      ColdIsIdle();
    }

    /**
     One forward: plan it, and offer a single-token decode to the graph.  A replay happens on
     the buffer the capture read, at its capacity, with this forward's pages in it.
     */
    method Forward(tables: seq<seq<nat>>, cached: seq<nat>, qlens: seq<nat>, decode: bool, ps: nat, usable: bool,
                   captures: bool)
      returns (ok: bool, r: Result)
      requires Valid() && ps > 0 && |tables| == |cached| == |qlens|
      modifies this, buffers, buffers.pageIndices, buffers.kvIndices, graph
      ensures Valid()
      ensures MetaOf(tables, Sums(cached, qlens), ps, |tables|) == if ok then Some(buffers.Active()) else None
      ensures r == Replayed ==>
        && seen == old(seen) == buffers.pageIndices == old(buffers.pageIndices)
        && old(graph.captured) && graph.capGen == buffers.gen && graph.capPages == buffers.cap
        && |tables| == 1 && buffers.nPages <= |tables[0]| && buffers.nPages <= seen.Length
        && seen[..buffers.nPages] == tables[0][..buffers.nPages]
      ensures r == Captured ==> seen == buffers.pageIndices
      ensures buffers.fast <==> decode && |tables| == 1 && qlens[0] == 1
      ensures buffers.gen == old(buffers.gen) <==>
        !ok || !buffers.fast || (old(buffers.gen) > 0 && |tables[0]| <= old(buffers.cap))
      ensures var fits := Fits(old(graph.View()), buffers.nPages, Buffers(buffers.gen, buffers.cap));
        var offered := ok && buffers.fast && usable && !old(graph.disabled);
        && (r == Replayed <==> offered && fits)
        && (old(graph.captured) ==> (graph.captured <==> !offered || fits))
    {
      hide Pages, GateInv, LastLen, SlotOf, MetaOf;
      ghost var g, was := graph.View(), Buffers(buffers.gen, buffers.cap);
      r := Eager;
      ok := buffers.BeginForward(tables, cached, qlens, decode, ps);
      if !ok || !buffers.fast {
        return;
      }
      ghost var now := Buffers(buffers.gen, buffers.cap);
      StillBound(g, was, now);
      MaybeRunKeeps(g, now, buffers.nPages, usable, captures);
      ReplayNow(g, now, buffers.nPages, usable, captures);
      CallExactly(g, now, buffers.nPages, usable, captures);
      r := graph.Execute(buffers.nPages, buffers.cap, buffers.gen, usable, captures);
      if r == Captured {
        seen := buffers.pageIndices;
      }
    }

    method Restart()
      requires Valid()
      modifies graph
      ensures Valid() && !graph.captured
    {
      graph.Restart();
    }
  }

  lemma ColdIsIdle()
    ensures GateInv(Cold, Buffers(0, 0))
  {
  }

  /** Buffers keep their generation and capacity, or move to a later generation. */
  lemma StillBound(g: Gate, b: Buffers, b': Buffers)
    requires GateInv(g, b) && (b' == b || b'.gen > b.gen) && b'.cap > 0 && b'.gen > 0
    ensures GateInv(g, b')
    ensures b'.gen > b.gen && g.captured ==> g.capGen < b'.gen
  {
    hide Lifecycle;
  }

  /** What the gate's answer says about the capture. */
  lemma ReplayNow(g: Gate, b: Buffers, npages: nat, usable: bool, ok: bool)
    requires GateInv(g, b) && b.gen > 0
    ensures var (g', r) := MaybeRun(g, npages, b.cap, b.gen, usable, ok);
      && (r == Replayed ==> g.captured && g'.capGen == g.capGen == b.gen && g'.capPages == g.capPages == b.cap)
      && (g'.captured && g'.capGen == b.gen ==> r == Captured || (g.captured && g.capGen == b.gen))
  {
    hide Lifecycle;
  }
}
