/**
 The prefix store of the hybrid model and its dual-pool page handles, as values.  An entry and
 every sequence that hit it share pages of the common pool; the store owns one reference of its
 own, so pages of a hit survive the eviction of the entry.
 */
module V4Prefix {
  import opened Prelude
  import opened Paging
  import opened Ledger
  import opened PagePool
  import opened Allocator

  /** `buffers` are the CPU snapshots by name; `comp` repeats `swa` unless given separately. */
  datatype V4Entry = V4Entry(
    key: Path, logits: Option<Logits>, buffers: map<nat, Row>,
    swa: seq<nat>, comp: seq<nat>, tokens: nat, primary: bool)

  datatype DualHandle = DualHandle(swa: seq<nat>, comp: seq<nat>, n: nat)

  datatype Store = Store(c: Cache, entries: seq<V4Entry>, cap: nat)

  type Handles = map<nat, DualHandle>

  // ---------------------------------------------------------------- operations

  /** Position of the entry with this key, or the number of entries. */
  function IndexOf(entries: seq<V4Entry>, key: Path): (i: nat)
    ensures i <= |entries| && (i < |entries| ==> entries[i].key == key)
    ensures forall j :: 0 <= j < i ==> entries[j].key != key
  {
    if entries == [] then 0
    else if entries[0].key == key then 0
    else 1 + IndexOf(entries[1..], key)
  }

  predicate Distinct(swa: seq<nat>, comp: seq<nat>) {
    comp != [] && comp != swa
  }

  ghost function ReleaseEntry(c: Cache, e: V4Entry): Cache {
    if Distinct(e.swa, e.comp) then Release(Release(c, e.swa), e.comp) else Release(c, e.swa)
  }

  /** The references an insert takes. */
  ghost function ForkTables(c: Cache, swa: seq<nat>, comp: seq<nat>): Cache {
    if swa == [] then c
    else if Distinct(swa, comp) then Fork(Fork(c, swa), comp)
    else Fork(c, swa)
  }

  function Owned(e: V4Entry): V4Entry {
    if e.swa != [] && !Distinct(e.swa, e.comp) then e.(comp := e.swa) else e
  }

  /** Nothing to store: no tokens, or neither buffers nor pages that replace them. */
  predicate Rejected(e: V4Entry) {
    e.key == [] || (e.buffers == map[] && !(e.primary && e.swa != []))
  }

  /** Drops the oldest entries until the store fits. */
  ghost function Trim(s: Store): Store
    decreases |s.entries|
  {
    if |s.entries| <= s.cap then s
    else Trim(s.(c := ReleaseEntry(s.c, s.entries[0]), entries := s.entries[1..]))
  }

  ghost function Insert(s: Store, e: V4Entry): Store {
    if Rejected(e) then s
    else
      var c := ForkTables(s.c, e.swa, e.comp);
      var i := IndexOf(s.entries, e.key);
      if i < |s.entries| then s.(c := ReleaseEntry(c, s.entries[i]), entries := s.entries[i := Owned(e)])
      else Trim(s.(c := c, entries := s.entries + [Owned(e)]))
  }

  /** Pages of a hit are forked for the sequence; an entry without pages gives no handle. */
  ghost function ForkForHit(c: Cache, e: V4Entry): (Cache, Option<DualHandle>) {
    if e.swa == [] then (c, None)
    else
      var n := if e.tokens > 0 then e.tokens else |e.key|;
      if Distinct(e.swa, e.comp) then (Fork(Fork(c, e.swa), e.comp), Some(DualHandle(e.swa, e.comp, n)))
      else (Fork(c, e.swa), Some(DualHandle(e.swa, e.swa, n)))
  }

  /** A handle is released once, through its first non-empty table. */
  ghost function ReleaseHandle(c: Cache, h: DualHandle): Cache {
    Release(c, if h.swa != [] then h.swa else h.comp)
  }

  ghost function Clear(s: Store): Store
    decreases |s.entries|
  {
    if s.entries == [] then s
    else Clear(s.(c := ReleaseEntry(s.c, s.entries[0]), entries := s.entries[1..]))
  }

  // ---------------------------------------------------------------- matching

  predicate IsPrefix(e: V4Entry, tokens: Path) {
    0 < |e.key| <= |tokens| && tokens[..|e.key|] == e.key
  }

  function LenOf(r: Option<V4Entry>): nat {
    if r.Some? then |r.value.key| else 0
  }

  /** Running best over the stored entries, oldest first. */
  function Best(entries: seq<V4Entry>, tokens: Path): (r: Option<V4Entry>)
    ensures r.Some? ==> r.value in entries && IsPrefix(r.value, tokens)
  {
    if entries == [] then None
    else
      var n := |entries| - 1;
      var r := Best(entries[..n], tokens);
      if IsPrefix(entries[n], tokens) && |entries[n].key| > LenOf(r) then Some(entries[n]) else r
  }

  /** The best match is the longest stored entry that is a prefix; there is none if none is stored. */
  lemma {:induction false} BestIsLongest(entries: seq<V4Entry>, tokens: Path)
    ensures forall e :: e in entries && IsPrefix(e, tokens) ==> |e.key| <= LenOf(Best(entries, tokens))
    decreases |entries|
  {
    if entries != [] {
      var n := |entries| - 1;
      BestIsLongest(entries[..n], tokens);
      assert entries == entries[..n] + [entries[n]];
    }
  }

  // ---------------------------------------------------------------- owners

  ghost predicate UniqueKeys(entries: seq<V4Entry>) {
    forall i, j :: 0 <= i < j < |entries| ==> entries[i].key != entries[j].key
  }

  ghost function Names(entries: seq<V4Entry>, handles: Handles): set<Owner> {
    (set e | e in entries :: Entry(e.key)) + (set id | id in handles :: Handle(id))
  }

  ghost function ListOf(entries: seq<V4Entry>, handles: Handles, o: Owner): seq<nat> {
    match o
    case Entry(key) => var i := IndexOf(entries, key); if i < |entries| then entries[i].swa else []
    case Handle(id) => if id in handles then handles[id].swa else []
    case _ => []
  }

  /** The store owns one list per entry, every handle one list. */
  ghost function Owning(entries: seq<V4Entry>, handles: Handles): Owners {
    map o | o in Names(entries, handles) :: ListOf(entries, handles, o)
  }

  lemma IndexIs(entries: seq<V4Entry>, i: nat)
    requires UniqueKeys(entries) && i < |entries|
    ensures IndexOf(entries, entries[i].key) == i
  {
  }

  lemma HasName(entries: seq<V4Entry>, handles: Handles, key: Path)
    ensures Entry(key) in Names(entries, handles) <==> IndexOf(entries, key) < |entries|
  {
    if IndexOf(entries, key) < |entries| {
      assert entries[IndexOf(entries, key)] in entries;
    }
  }

  lemma EntryList(entries: seq<V4Entry>, handles: Handles, i: nat)
    requires UniqueKeys(entries) && i < |entries|
    ensures Entry(entries[i].key) in Owning(entries, handles)
    ensures Owning(entries, handles)[Entry(entries[i].key)] == entries[i].swa
  {
    IndexIs(entries, i);
    HasName(entries, handles, entries[i].key);
  }

  lemma OwningFirst(entries: seq<V4Entry>, handles: Handles)
    requires UniqueKeys(entries) && entries != []
    ensures UniqueKeys(entries[1..])
    ensures Owning(entries[1..], handles) == Owning(entries, handles) - {Entry(entries[0].key)}
  {
    var l, r := Owning(entries[1..], handles), Owning(entries, handles) - {Entry(entries[0].key)};
    forall o
      ensures o in l <==> o in r
      ensures o in l ==> l[o] == r[o]
    {
      match o {
        case Entry(key) =>
          HasName(entries, handles, key);
          HasName(entries[1..], handles, key);
        case _ =>
      }
    }
    assert l.Keys == r.Keys;
  }

  /** Owners agree when names and lists do. */
  lemma OwningIs(entries: seq<V4Entry>, handles: Handles, own: Owners)
    requires own.Keys == Names(entries, handles)
    requires forall o :: o in own ==> own[o] == ListOf(entries, handles, o)
    ensures Owning(entries, handles) == own
  {
  }

  lemma IndexSnoc(entries: seq<V4Entry>, e: V4Entry, key: Path)
    requires IndexOf(entries, e.key) == |entries|
    ensures IndexOf(entries + [e], key) == if key == e.key then |entries| else
              if IndexOf(entries, key) < |entries| then IndexOf(entries, key) else |entries| + 1
  {
    var es := entries + [e];
    var a, b := IndexOf(es, key), IndexOf(entries, key);
    assert a < |entries| ==> entries[a] == es[a];
    assert b < |entries| ==> entries[b] == es[b];
    assert es[|entries|].key == e.key;
  }

  lemma OwningSnoc(entries: seq<V4Entry>, handles: Handles, e: V4Entry)
    requires UniqueKeys(entries) && IndexOf(entries, e.key) == |entries|
    ensures UniqueKeys(entries + [e])
    ensures Entry(e.key) !in Owning(entries, handles)
    ensures Owning(entries + [e], handles) == Owning(entries, handles)[Entry(e.key) := e.swa]
  {
    hide IndexOf;
    HasName(entries, handles, e.key);
    var es := entries + [e];
    var own := Owning(entries, handles)[Entry(e.key) := e.swa];
    assert own.Keys == Names(es, handles);
    forall o | o in own
      ensures own[o] == ListOf(es, handles, o)
    {
      if o.Entry? {
        IndexSnoc(entries, e, o.key);
        HasName(entries, handles, o.key);
      }
    }
    OwningIs(es, handles, own);
  }

  lemma IndexReplace(entries: seq<V4Entry>, i: nat, e: V4Entry, key: Path)
    requires i < |entries| && e.key == entries[i].key
    ensures IndexOf(entries[i := e], key) == IndexOf(entries, key)
  {
    var a, b := IndexOf(entries[i := e], key), IndexOf(entries, key);
    assert a < |entries| ==> entries[a].key == entries[i := e][a].key;
    assert b < |entries| ==> entries[b].key == entries[i := e][b].key;
  }

  lemma OwningReplace(entries: seq<V4Entry>, handles: Handles, i: nat, e: V4Entry)
    requires UniqueKeys(entries) && i < |entries| && e.key == entries[i].key
    ensures UniqueKeys(entries[i := e])
    ensures Owning(entries[i := e], handles) == Owning(entries, handles)[Entry(e.key) := e.swa]
  {
    hide IndexOf;
    var es := entries[i := e];
    var own := Owning(entries, handles)[Entry(e.key) := e.swa];
    IndexIs(entries, i);
    HasName(entries, handles, e.key);
    forall o
      ensures o in Names(es, handles) <==> o in own
      ensures o in own ==> own[o] == ListOf(es, handles, o)
    {
      if o.Entry? {
        IndexReplace(entries, i, e, o.key);
        HasName(entries, handles, o.key);
        HasName(es, handles, o.key);
        if o.key != e.key && IndexOf(es, o.key) < |es| {
          assert IndexOf(es, o.key) != i;
        }
      }
    }
    assert own.Keys == Names(es, handles);
    OwningIs(es, handles, own);
  }

  // ---------------------------------------------------------------- balance

  /** Both tables of an entry or handle are the same pages. */
  ghost predicate Twin(swa: seq<nat>, comp: seq<nat>) {
    comp == swa
  }

  ghost predicate Twins(entries: seq<V4Entry>, handles: Handles) {
    && (forall e :: e in entries ==> Twin(e.swa, e.comp))
    && (forall id :: id in handles ==> Twin(handles[id].swa, handles[id].comp))
  }

  /** No page is allocated without a reference. */
  ghost predicate Held(c: Cache) {
    forall b :: b in c.alloc ==> c.alloc[b] >= 1
  }

  ghost predicate Good(s: Store, handles: Handles) {
    && Inv(s.c, Owning(s.entries, handles)) && Held(s.c)
    && UniqueKeys(s.entries) && |s.entries| <= s.cap && Twins(s.entries, handles)
  }

  lemma HeldRelease(c: Cache, l: seq<nat>)
    requires Shape(c) && Held(c)
    ensures Held(Release(c, l))
  {
    hide Shape;
    ReleaseEffect(c, l);
  }

  lemma HeldFork(c: Cache, l: seq<nat>)
    requires Held(c)
    ensures Held(Fork(c, l))
  {
  }

  lemma {:induction false} HeldEvict(c: Cache, own: Owners, cands: seq<Path>, needed: int)
    requires Inv(c, own) && Victim !in own && Held(c)
    requires NoDup(cands) && forall p :: p in cands ==> Candidate(c, p)
    ensures Held(EvictFrom(c, cands, needed).0)
    decreases |cands|
  {
    hide Shape, ListsOk, Counted, Keeps, Candidate, Held, Release;
    if needed > 0 && cands != [] {
      var p := cands[0];
      EvictLeafOk(c, own, p);
      forall q | q in cands[1..]
        ensures Candidate(EvictLeaf(c, p), q)
      {
        StillCandidate(c, own, p, q);
      }
      UnlinkedShape(c, own, p);
      HeldUnlinked(c, p);
      HeldRelease(Unlinked(c, p), c.tree[p].blocks);
      HeldEvict(EvictLeaf(c, p), own, cands[1..], needed - |c.tree[p].blocks|);
    }
  }

  lemma HeldUnlinked(c: Cache, p: Path)
    requires Held(c)
    ensures Held(Unlinked(c, p))
  {
  }

  lemma HeldAllocOne(c: Cache, own: Owners, need: nat)
    requires Inv(c, own) && Victim !in own && Held(c)
    ensures Held(AllocOne(c, need).c)
  {
    hide Inv, Candidate;
    if c.free == [] && c.next >= |c.kv| {
      CandidatesAre(c, own);
      HeldEvict(c, own, Candidates(c), need);
    }
  }

  lemma CandidatesAre(c: Cache, own: Owners)
    requires Inv(c, own)
    ensures NoDup(Candidates(c)) && forall p :: p in Candidates(c) ==> Candidate(c, p)
  {
    CandidatesDistinct(c, c.order);
  }

  lemma {:induction false} HeldAllocLoop(c: Cache, own: Owners, count: nat)
    requires Inv(c, own) && Victim !in own && InFlight in own && Private(c, own[InFlight])
    requires |own[InFlight]| <= count && Held(c)
    ensures Held(AllocLoop(c, own[InFlight], count).c)
    decreases count - |own[InFlight]|
  {
    hide Shape, ListsOk, Counted, Keeps, Calm, Held;
    var ids := own[InFlight];
    if |ids| < count {
      AllocOneOk(c, own, InFlight, count - |ids|);
      HeldAllocOne(c, own, count - |ids|);
      match AllocOne(c, count - |ids|) {
        case Got(c1, b) =>
          assert b == [b[0]];
          StaysPrivate(c, own, InFlight, c1, b[0]);
          HeldAllocLoop(c1, own[InFlight := ids + b], count);
        case Oom(c1) =>
          HeldRelease(c1, ids);
      }
    }
  }

  lemma HeldAlloc(c: Cache, own: Owners, count: nat)
    requires Inv(c, own) && Victim !in own && InFlight !in own && Held(c)
    ensures Held(AllocBlocks(c, count).c)
  {
    hide Inv;
    AddIdle(c, own, InFlight);
    HeldAllocLoop(c, own[InFlight := []], count);
  }

  lemma Strangers(entries: seq<V4Entry>, handles: Handles)
    ensures InFlight !in Owning(entries, handles) && Victim !in Owning(entries, handles)
  {
  }

  /** Dropping the oldest entry. */
  lemma PopOk(s: Store, handles: Handles)
    requires Inv(s.c, Owning(s.entries, handles)) && Held(s.c)
    requires UniqueKeys(s.entries) && Twins(s.entries, handles) && s.entries != []
    ensures var c' := ReleaseEntry(s.c, s.entries[0]);
      && Inv(c', Owning(s.entries[1..], handles)) && Held(c')
      && UniqueKeys(s.entries[1..]) && Twins(s.entries[1..], handles)
      && Keeps(s.c, c', Owning(s.entries[1..], handles))
  {
    hide Shape, ListsOk, Counted, Keeps, Held, Owning;
    var own, e := Owning(s.entries, handles), s.entries[0];
    assert Twin(e.swa, e.comp);
    EntryList(s.entries, handles, 0);
    OwningFirst(s.entries, handles);
    ReleaseOwner(s.c, own, Entry(e.key));
    HeldRelease(s.c, e.swa);
  }

  lemma {:induction false} TrimOk(s: Store, handles: Handles)
    requires Inv(s.c, Owning(s.entries, handles)) && Held(s.c)
    requires UniqueKeys(s.entries) && Twins(s.entries, handles)
    ensures Good(Trim(s), handles)
    ensures Keeps(s.c, Trim(s).c, Owning(Trim(s).entries, handles))
    ensures Trim(s).entries == if |s.entries| <= s.cap then s.entries else s.entries[|s.entries| - s.cap..]
    ensures Trim(s).cap == s.cap
    decreases |s.entries|
  {
    hide Inv, Keeps, Held, Owning, Twins, UniqueKeys;
    if |s.entries| <= s.cap {
      KeepsRefl(s.c, Owning(s.entries, handles));
    } else {
      PopOk(s, handles);
      var s1 := s.(c := ReleaseEntry(s.c, s.entries[0]), entries := s.entries[1..]);
      TrimOk(s1, handles);
      var own, own1 := Owning(s1.entries, handles), Owning(Trim(s).entries, handles);
      OwningTail(s1.entries, Trim(s).entries, handles);
      KeepsWeaken(s.c, s1.c, own, own1);
      KeepsTrans(s.c, s1.c, Trim(s).c, own1);
    }
  }

  /** A tail of the list owns a part of what the list owns. */
  lemma OwningTail(entries: seq<V4Entry>, rest: seq<V4Entry>, handles: Handles)
    requires UniqueKeys(entries) && |rest| <= |entries| && rest == entries[|entries| - |rest|..]
    ensures forall k :: k in Owning(rest, handles) ==>
              k in Owning(entries, handles) && Owning(rest, handles)[k] == Owning(entries, handles)[k]
  {
    hide IndexOf, UniqueKeys;
    var d := |entries| - |rest|;
    TailUnique(entries, rest);
    forall k | k in Owning(rest, handles)
      ensures k in Owning(entries, handles) && Owning(rest, handles)[k] == Owning(entries, handles)[k]
    {
      if k.Entry? {
        HasName(rest, handles, k.key);
        var i := IndexOf(rest, k.key);
        assert entries[d + i] == rest[i];
        EntryList(entries, handles, d + i);
        EntryList(rest, handles, i);
      }
    }
  }

  lemma TailUnique(entries: seq<V4Entry>, rest: seq<V4Entry>)
    requires UniqueKeys(entries) && |rest| <= |entries| && rest == entries[|entries| - |rest|..]
    ensures UniqueKeys(rest)
  {
  }

  /**
   Insert with one page table, given twice or once: the store stays balanced and bounded with
   unique keys, and every owner that survives keeps its pages and rows.
   */
  lemma InsertOk(s: Store, handles: Handles, e: V4Entry)
    requires Good(s, handles) && ListOk(s.c, e.swa) && (e.comp == [] || e.comp == e.swa)
    ensures var s' := Insert(s, e);
      Good(s', handles) && s'.cap == s.cap
      && Keeps(s.c, s'.c, Owning(s'.entries, handles) - {Entry(e.key)})
  {
    hide Inv, Keeps, Held, Owning, Trim, ReleaseEntry, ForkTables, Twins;
    if Rejected(e) {
      KeepsRefl(s.c, Owning(s.entries, handles));
      KeepsDrop(s.c, s.c, Owning(s.entries, handles), Entry(e.key));
    } else if IndexOf(s.entries, e.key) < |s.entries| {
      InsertOver(s, handles, e, IndexOf(s.entries, e.key));
    } else {
      InsertNew(s, handles, e);
    }
  }

  lemma InsertOver(s: Store, handles: Handles, e: V4Entry, i: nat)
    requires Good(s, handles) && ListOk(s.c, e.swa) && (e.comp == [] || e.comp == e.swa)
    requires i < |s.entries| && s.entries[i].key == e.key
    ensures var c' := ReleaseEntry(ForkTables(s.c, e.swa, e.comp), s.entries[i]);
      var es := s.entries[i := Owned(e)];
      && Good(s.(c := c', entries := es), handles)
      && Keeps(s.c, c', Owning(es, handles) - {Entry(e.key)})
  {
    hide Shape, ListsOk, Counted, Keeps, Held, Owning, ForkTables;
    var own, c := Owning(s.entries, handles), ForkTables(s.c, e.swa, e.comp);
    var own1 := own[InFlight := e.swa];
    var c', es := Release(c, s.entries[i].swa), s.entries[i := Owned(e)];
    Strangers(s.entries, handles);
    ForkIn(s.c, own, e);
    EntryList(s.entries, handles, i);
    ReplaceOk(c, own1, s.entries[i], e.swa);
    HeldRelease(c, s.entries[i].swa);
    assert Twin(s.entries[i].swa, s.entries[i].comp) by { assert s.entries[i] in s.entries; }
    OwningReplace(s.entries, handles, i, Owned(e));
    var own2 := own1 - {InFlight, Entry(e.key)};
    assert own2[Entry(e.key) := e.swa] == Owning(es, handles);
    assert Owning(es, handles) - {Entry(e.key)} == own2;
    KeepsWeaken(s.c, c, own1, own2);
    KeepsTrans(s.c, c, c', own2);
  }

  lemma InsertNew(s: Store, handles: Handles, e: V4Entry)
    requires Good(s, handles) && ListOk(s.c, e.swa) && (e.comp == [] || e.comp == e.swa)
    requires IndexOf(s.entries, e.key) == |s.entries|
    ensures var s1 := s.(c := ForkTables(s.c, e.swa, e.comp), entries := s.entries + [Owned(e)]);
      && Good(Trim(s1), handles) && Trim(s1).cap == s.cap
      && Keeps(s.c, Trim(s1).c, Owning(Trim(s1).entries, handles) - {Entry(e.key)})
  {
    hide Shape, ListsOk, Counted, Keeps, Held, Owning, ForkTables, Trim;
    var own, c := Owning(s.entries, handles), ForkTables(s.c, e.swa, e.comp);
    var own1 := own[InFlight := e.swa];
    var es := s.entries + [Owned(e)];
    var s1 := s.(c := c, entries := es);
    Strangers(s.entries, handles);
    ForkIn(s.c, own, e);
    OwningSnoc(s.entries, handles, Owned(e));
    Rename(c, own1, InFlight, Entry(e.key));
    assert (own1 - {InFlight})[Entry(e.key) := e.swa] == Owning(es, handles);
    TrimOk(s1, handles);
    OwningTail(es, Trim(s1).entries, handles);
    var own3 := Owning(Trim(s1).entries, handles) - {Entry(e.key)};
    KeepsWeaken(s.c, c, own1, own3);
    KeepsWeaken(c, Trim(s1).c, Owning(Trim(s1).entries, handles), own3);
    KeepsTrans(s.c, c, Trim(s1).c, own3);
  }

  /** The store's own reference on the pages of a new entry. */
  lemma ForkIn(c: Cache, own: Owners, e: V4Entry)
    requires Inv(c, own) && Held(c) && InFlight !in own && ListOk(c, e.swa) && (e.comp == [] || e.comp == e.swa)
    ensures var c' := ForkTables(c, e.swa, e.comp);
      Inv(c', own[InFlight := e.swa]) && Held(c') && Keeps(c, c', own[InFlight := e.swa])
  {
    hide Shape, ListsOk, Counted, Keeps, Held;
    if e.swa == [] {
      AddIdle(c, own, InFlight);
      KeepsRefl(c, own[InFlight := []]);
    } else {
      ForkOwner(c, own, InFlight, e.swa);
      HeldFork(c, e.swa);
    }
  }

  /** Replacing the pages of an entry by those taken for the new one. */
  lemma ReplaceOk(c: Cache, own: Owners, old_: V4Entry, swa: seq<nat>)
    requires Inv(c, own) && InFlight in own && own[InFlight] == swa
    requires Entry(old_.key) in own && own[Entry(old_.key)] == old_.swa
    ensures var c' := Release(c, old_.swa);
      && Inv(c', (own - {InFlight, Entry(old_.key)})[Entry(old_.key) := swa])
      && Keeps(c, c', own - {InFlight, Entry(old_.key)})
  {
    hide Inv, Keeps;
    var k := Entry(old_.key);
    ReleaseOwner(c, own, k);
    Rename(Release(c, old_.swa), own - {k}, InFlight, k);
    assert own - {k} - {InFlight} == own - {InFlight, k};
    KeepsDrop(c, Release(c, old_.swa), own - {k}, InFlight);
  }

  /** A hit adds one owner; the handle sees both tables equal. */
  lemma HitOk(s: Store, handles: Handles, i: nat, id: nat)
    requires Good(s, handles) && i < |s.entries| && id !in handles && s.entries[i].swa != []
    ensures var (c, h) := ForkForHit(s.c, s.entries[i]);
      && h.Some? && h.value.swa == s.entries[i].swa
      && Good(s.(c := c), handles[id := h.value])
      && Keeps(s.c, c, Owning(s.entries, handles[id := h.value]))
  {
    hide Shape, ListsOk, Counted, Keeps, Held, Owning;
    var e := s.entries[i];
    assert e in s.entries && Twin(e.swa, e.comp);
    EntryList(s.entries, handles, i);
    OwnedList(s.c, Owning(s.entries, handles), Entry(e.key));
    OwningHandle(s.entries, handles, id, ForkForHit(s.c, e).1.value);
    ForkOwner(s.c, Owning(s.entries, handles), Handle(id), e.swa);
    HeldFork(s.c, e.swa);
  }

  lemma OwnedList(c: Cache, own: Owners, k: Owner)
    requires ListsOk(c, own) && k in own
    ensures ListOk(c, own[k])
  {
  }

  lemma OwningHandle(entries: seq<V4Entry>, handles: Handles, id: nat, h: DualHandle)
    ensures Owning(entries, handles[id := h]) == Owning(entries, handles)[Handle(id) := h.swa]
    ensures Handle(id) in Owning(entries, handles) <==> id in handles
  {
    hide IndexOf;
    var l, r := Owning(entries, handles[id := h]), Owning(entries, handles)[Handle(id) := h.swa];
    assert l.Keys == r.Keys;
  }

  lemma OwningLess(entries: seq<V4Entry>, handles: Handles, id: nat)
    ensures Owning(entries, handles - {id}) == Owning(entries, handles) - {Handle(id)}
  {
    hide IndexOf;
    var l, r := Owning(entries, handles - {id}), Owning(entries, handles) - {Handle(id)};
    assert l.Keys == r.Keys;
  }

  lemma ReleaseHandleOk(s: Store, handles: Handles, id: nat)
    requires Good(s, handles) && id in handles
    ensures var c := ReleaseHandle(s.c, handles[id]);
      Good(s.(c := c), handles - {id}) && Keeps(s.c, c, Owning(s.entries, handles - {id}))
  {
    hide Shape, ListsOk, Counted, Keeps, Held, Owning;
    var own := Owning(s.entries, handles);
    assert Twin(handles[id].swa, handles[id].comp);
    assert own[Handle(id)] == handles[id].swa && Handle(id) in own by { OwningOf(s.entries, handles, id); }
    OwningLess(s.entries, handles, id);
    ReleaseOwner(s.c, own, Handle(id));
    HeldRelease(s.c, handles[id].swa);
  }

  lemma OwningOf(entries: seq<V4Entry>, handles: Handles, id: nat)
    requires id in handles
    ensures Handle(id) in Owning(entries, handles) && Owning(entries, handles)[Handle(id)] == handles[id].swa
  {
  }

  lemma {:induction false} ClearOk(s: Store, handles: Handles)
    requires Good(s, handles)
    ensures Good(Clear(s), handles) && Clear(s).entries == [] && Clear(s).cap == s.cap
    ensures Keeps(s.c, Clear(s).c, Owning([], handles))
    decreases |s.entries|
  {
    hide Inv, Keeps, Held, Owning, Twins, UniqueKeys;
    if s.entries == [] {
      KeepsRefl(s.c, Owning(s.entries, handles));
    } else {
      PopOk(s, handles);
      var s1 := s.(c := ReleaseEntry(s.c, s.entries[0]), entries := s.entries[1..]);
      ClearOk(s1, handles);
      OwningTail(s1.entries, [], handles);
      KeepsWeaken(s.c, s1.c, Owning(s1.entries, handles), Owning([], handles));
      KeepsTrans(s.c, s1.c, Clear(s).c, Owning([], handles));
    }
  }

  /**
   With every handle released, clearing the store leaves no page that only it held: each page
   still allocated is listed by the prefix tree, and with an empty tree all pages are back.
   */
  lemma ClearReturnsPages(s: Store)
    requires Good(s, map[])
    ensures var c := Clear(s).c;
      && (forall b :: b in c.alloc ==> exists p :: p in c.tree && b in c.tree[p].blocks)
      && ((forall p :: p in c.tree ==> c.tree[p].blocks == []) ==>
            c.alloc == map[] && forall b: nat :: b < c.next <==> b in c.free)
  {
    ClearOk(s, map[]);
    var c := Clear(s).c;
    assert Owning([], map[]) == map[];
    forall b | b in c.alloc
      ensures exists p :: p in c.tree && b in c.tree[p].blocks
    {
      assert OwnerCount(c, map[], b) >= 1;
      assert Count<Owner>(map[], b) == 0 by { assert Holders<Owner>(map[], b) == {}; }
      var p :| p in Holders(Blocks(c.tree), b);
    }
    if forall p :: p in c.tree ==> c.tree[p].blocks == [] {
      assert c.alloc.Keys == {};
    }
  }

  // ---------------------------------------------------------------- separate tables

  /**
   A hit followed by the release of its handle restores every reference count exactly when the
   two tables of the entry are the same pages: a separate second table is forked but never
   released.
   */
  lemma HitReleaseBalancedExactly(c: Cache, e: V4Entry)
    requires Shape(c) && Held(c) && e.swa != [] && ListOk(c, e.swa) && ListOk(c, e.comp)
    ensures var (c1, h) := ForkForHit(c, e);
      ReleaseHandle(c1, h.value).alloc == c.alloc <==> e.comp == [] || e.comp == e.swa
  {
    hide Shape, ListOk, Release, Fork;
    var c2 := ReleaseHandle(ForkForHit(c, e).0, ForkForHit(c, e).1.value);
    forall b
      ensures b in c2.alloc <==> b in c.alloc
      ensures b in c.alloc ==> c2.alloc[b] == c.alloc[b] + if Distinct(e.swa, e.comp) then One(b in e.comp) else 0
    {
      HitReleaseCount(c, e, b);
    }
    assert c2.alloc.Keys == c.alloc.Keys;
    if Distinct(e.swa, e.comp) {
      assert e.comp[0] in e.comp && e.comp[0] in c.alloc by { FirstListed(c, e.comp); }
    }
  }

  lemma FirstListed(c: Cache, l: seq<nat>)
    requires ListOk(c, l) && l != []
    ensures l[0] in l && l[0] in c.alloc
  {
  }

  lemma HitReleaseCount(c: Cache, e: V4Entry, b: nat)
    requires Shape(c) && Held(c) && e.swa != [] && ListOk(c, e.swa) && ListOk(c, e.comp)
    ensures var c2 := ReleaseHandle(ForkForHit(c, e).0, ForkForHit(c, e).1.value);
      && (b in c2.alloc <==> b in c.alloc)
      && (b in c.alloc ==> c2.alloc[b] == c.alloc[b] + if Distinct(e.swa, e.comp) then One(b in e.comp) else 0)
  {
    hide Shape, NoDup;
    var c1 := ForkForHit(c, e).0;
    ForkShape(c, e.swa);
    ForkShape(Fork(c, e.swa), e.comp);
    ReleaseEffect(c1, e.swa);
    Multiplicity(e.swa, b);
    Multiplicity(e.comp, b);
  }

  lemma ForkShape(c: Cache, l: seq<nat>)
    requires Shape(c)
    ensures Shape(Fork(c, l))
  {
    hide TreeOk, PoolOk;
    assert Fork(c, l).alloc.Keys == c.alloc.Keys;
  }

  /**
   Storing an entry and releasing it again, with any two tables, restores every reference count
   exactly when there is a first table or no second one: a second table alone is stored without
   a reference but released all the same.
   */
  lemma EntryBalancedExactly(c: Cache, e: V4Entry)
    requires Shape(c) && Held(c) && ListOk(c, e.swa) && ListOk(c, e.comp)
    ensures ReleaseEntry(ForkTables(c, e.swa, e.comp), Owned(e)).alloc == c.alloc <==> e.swa != [] || e.comp == []
  {
    hide Shape, ListOk, Release, Fork;
    var c2 := ReleaseEntry(ForkTables(c, e.swa, e.comp), Owned(e));
    if e.swa != [] || e.comp == [] {
      forall b
        ensures b in c2.alloc <==> b in c.alloc
        ensures b in c.alloc ==> c2.alloc[b] == c.alloc[b]
      {
        StoreReleaseCount(c, e, b);
      }
      assert c2.alloc.Keys == c.alloc.Keys;
    } else {
      FirstListed(c, e.comp);
      assert Release(c, []) == c by { ReleaseEmpty(c); }
      ReleaseLowers(c, e.comp);
    }
  }

  lemma ReleaseEmpty(c: Cache)
    ensures Release(c, []) == c
  {
  }

  lemma ReleaseLowers(c: Cache, l: seq<nat>)
    requires Shape(c) && l != [] && l[0] in l && l[0] in c.alloc
    ensures Release(c, l).alloc != c.alloc
  {
    hide Shape;
    ReleaseEffect(c, l);
  }

  lemma StoreReleaseCount(c: Cache, e: V4Entry, b: nat)
    requires Shape(c) && Held(c) && ListOk(c, e.swa) && ListOk(c, e.comp) && (e.swa != [] || e.comp == [])
    ensures var c2 := ReleaseEntry(ForkTables(c, e.swa, e.comp), Owned(e));
      && (b in c2.alloc <==> b in c.alloc)
      && (b in c.alloc ==> c2.alloc[b] == c.alloc[b])
  {
    hide Shape, NoDup, Release;
    var c1 := ForkTables(c, e.swa, e.comp);
    ForkShape(c, e.swa);
    ForkShape(Fork(c, e.swa), e.comp);
    Multiplicity(e.swa, b);
    Multiplicity(e.comp, b);
    ReleaseEffect(c1, e.swa);
    ReleaseEffect(Release(c1, e.swa), e.comp);
    if e.swa == [] {
      ReleaseEmpty(c);
    }
  }
}
