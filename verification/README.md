# Page ownership, scheduling and replay in a small LLM inference engine

A Dafny model of the core of the engine: who owns which KV page, which rows each page holds,
which request is in which batch, and which frame a client receives. Tensors are arrays of opaque
rows, the model forward is an uninterpreted deterministic function of the KV rows it attends to
(`Generation.Model`), and one row stands for the K and V vectors of every layer at one position.

Value functions say what an operation means; classes (`RadixCache`, `EngineCore`, `Scheduler`,
`EngineLoop`, `ServingLoop`, `DecodeBuffers`, `PagedDecodeGraph`, `Session`, `V4PrefixCache`, `DualPoolHandle`)
perform it in place with the loops of the engine, and each of their methods is proved equal to its value
function. The theorems are about the value functions, hence about the objects.

| file | models |
|---|---|
| `Prelude`, `Paging`, `Ledger` | page arithmetic; block tables as a refinement of a flat array; owner counting |
| `PagePool`, `Allocator`, `PrefixTree`, `RadixCache` | reference counts, eviction, allocation, copy-on-write, prefix tree; the class over them |
| `PoolLaws`, `Supply` | which pages go back and out, in which order; exactly when an allocation succeeds |
| `Generation`, `Engine`, `EngineSafety`, `EngineCore` | requests over the pool as a state machine, step by step; the class over it |
| `TreeRuns`, `Preparing` | what runs keep of the prefix tree, when a stored prompt is hit; what page preparation takes and when it is refused |
| `EngineBalance` | what every step keeps whatever the rows hold: balanced counts, appends of one row |
| `ColdBursts`, `SharedPages` | bursts that start on an unchecked page: exactly whom they harm, and why a lone batch harms nobody |
| `EngineRuns` | whole engine runs: cache transparency |
| `Serving`, `LoopEngine` | scheduler and engine together, and the engine loop over both: what clients are told |
| `UnalignedHits`, `UnalignedRun` | when a suffix prefill harms another reader; runs in which a prefill and a burst do |
| `BatchRun`, `BatchPlans` | one runner step: classification, grouping by cached length, one token per member; the plan stated on its members |
| `Scheduling`, `Limits`, `StopRules`, `Loop`, `LoopSafety`, `Draining`, `RaisedDrains`, `EngineLoop` | batch formation, stop rules, the engine loop, draining, drains that a burst ends |
| `Telling`, `Pumping` | what clients are told over whole histories; what each operation sends, and what a pump gives to whom |
| `Bursts`, `BurstRun` | decode bursts against single stepping; the burst over the page pool: when it raises and what it loses |
| `EnginePump`, `ServingLoop` | one whole pump over scheduler, engine and runner; the object that drives them |
| `LostBurst` | a run in which a burst raises: the queue left open, and the wrong answer after it |
| `DecodeMeta`, `GraphGate`, `DecodeSession` | cached decode metadata; the gate before graph replay; both together |
| `V4Prefix`, `V4Laws`, `V4Rows`, `V4PrefixCache` | the hybrid prefix store and dual-pool pages; what it holds and answers, both ways |
| `Ndjson` | line reassembly and reading in the control plane |
| `FooterPages` | footer page layout and index remap |
| `MoeDispatch` | expert placement and activated-expert dispatch |

## Where the code does less than it promises

For each of these a lemma says exactly when the promise holds, and for most a run or state shows
it failing.

- A suffix prefill writes into the last hit page without copying it. A reader that shares the page
  survives exactly when the prefill puts the same row into every cell they share
  (`UnalignedHits.PrefillSparesExactly`), in particular whenever the tokens agree up to there
  (`UnalignedHits.AgreementSpares`). `UnalignedRun.UnalignedHitClobbers` is a run of three requests
  in which a stored prompt then returns another prompt's row. Theorems about contents ask that
  hits are exact or end on a page boundary; balance of reference counts needs no such condition
  (`EngineBalance.RunInv`).
- Inside a paged decode burst the copy-on-write check runs only on page boundaries. Another
  request or stored prompt keeps its rows exactly when it does not read the written cell, or reads
  the same row there (`ColdBursts.BurstSparesRequestExactly`, `BurstSparesNodeExactly`).
  `UnalignedRun.ColdBurstClobbers` is a run, with one unaligned hit, in which a repeated prompt
  overwrites a row of a longer stored prompt. With exact or page-aligned hits it cannot happen:
  the loop bursts only when the batch is one request, so every other live request still waits and
  nobody reads past the prompt in the page where it ends (`SharedPages.FirstBurstIsClear`,
  `Serving.LoneBurst`).
- Copy-on-write that has to evict can leave the old page allocated without an owner: exactly when
  the evicted leaf was its only other holder (`Allocator.CowStrandsExactly`), as in the state of
  `Allocator.CowStrandsHere`.
- The number that eviction returns counts listed pages. It does not count freed ones, but it is
  positive only if a page was freed (`PagePool.EvictOk`).
- A burst whose first token already stops the request runs past the stop
  (`Bursts.BurstIsSinglesExactly`).
- A burst that needs a page of an exhausted pool raises out of the pump and out of the drain: the
  handler in `engine/loop.py:601-617` ends before the burst. That happens exactly when a burst
  step, reached without the break token, needs a page and finds no free one, no unused id and no
  leaf to evict (`BurstRun.BurstRaisesExactly`, `ServingLoop.PumpOnce`). It cannot happen when the
  pages that need no eviction cover prompt and tokens (`BurstRun.CoveredNeverRaises`). A drain
  answers everyone exactly when none of its pumps raises (`RaisedDrains.DrainAnswersExactly`);
  pumping again after each raise does end and answers everyone (`Draining.DrainAnswersEveryone`).
  `LostBurst.QueueLeftOpen` is a run that ends with an open queue.
- On the device path such a burst also loses its tokens: they are read from the ring only after
  the loop, while the rows and the cached length stay. The engine is sound afterwards exactly when
  there were none to lose (`BurstRun.LossIsHarmlessExactly`), and the next token is computed after
  a stale one (`BurstRun.StepTells`). In `LostBurst.WrongLengthAnswer` the client then receives a
  `length` answer that is not the reference generation. Theorems about answers ask that no tokens
  are lost.
- A prompt that was stored twice, or a node on the paths of two stored prompts, is never evicted
  again: insertions are counted up and nothing counts them down (`TreeRuns.TwiceStoredStays`).
- The tokens of a burst are judged over the whole output. What is kept before a stop string can
  then still contain another one: exactly when one listed later ends inside it
  (`StopRules.LeaksExactly`), as in `StopRules.BurstLeaksStop`. With one stop string, or in single
  steps, nothing gets through (`StopRules.OneStopIsEnough`, `SingleStepsLeakNothing`).
- A pump that raises keeps tokens it has not judged. Only if none of them stops the request does
  its output keep to the stop rules (`Telling.RaiseKeepsRulesExactly`).
- A request cancelled before it is submitted is dropped without a final frame
  (`Draining.LostExactly`).
- Releasing a dual-pool handle whose second table differs leaks the second table
  (`V4Prefix.HitReleaseBalancedExactly`); an entry stored with a second table only takes no
  reference but gives one back (`V4Prefix.EntryBalancedExactly`); and of two appends at one
  position through a shared page the later one wins (`V4Rows.LaterAppendWinsExactly`).
- Activated-expert dispatch counts every routed pair once exactly when a row routes to distinct
  experts (`MoeDispatch.CountedOnceExactly`).

## Model

| member | source | states |
|---|---|---|
| Prelude.PagesIsCeilDiv | engine/kv_cache.py:541 | the page count used throughout is the engine's rounded-up division |
| Paging.WriteThenRead | engine/kv_cache.py:545-560 | writing n rows at `start` through a duplicate-free table, then reading, is a flat-array update: old prefix, new rows, old suffix |
| Paging.WriteAt | engine/kv_cache.py:545-560 | each logical position reads the new row if it was written and its old row otherwise |
| Paging.WriteOtherCells | engine/kv_cache.py:545-560 | every (page, slot) cell outside the written positions is unchanged, whatever table names it |
| Paging.WriteFrame | engine/kv_cache.py:545-560 | pages not used by the written positions keep all rows |
| Paging.SpanIsWrite | engine/kv_cache.py:545-560 | one span copy inside a page equals writing its rows one at a time |
| Paging.GatherIsFlat | engine/kv_cache.py:566-594 | index-select, reshape and truncate reads exactly the logical rows |
| PagePool.ReleaseEffect | engine/kv_cache.py:743-768 | duplicates in the list count once; exactly the listed pages with one reference leave the allocated set, and the free list grows if there is one |
| PagePool.ReleaseOwner | engine/kv_cache.py:743-768 | when an owner releases its list, reference counts equal owner counts for the rest, the id partition holds, and no page of a remaining owner changes |
| PoolLaws.ReleaseOrder | engine/kv_cache.py:743-768 | released pages go on top of the free stack in list order: exactly the first mentions of pages with one reference or fewer |
| PoolLaws.ReleaseWipes | engine/kv_cache.py:755-767 | every row of a page that is given back is zero, and every other page keeps its rows |
| PagePool.ForkOwner | engine/kv_cache.py:662-669 | forking a list of allocated pages adds one owner and keeps counts, partition and rows |
| PagePool.CandidatesTie | engine/kv_cache.py:773-793 | eviction candidates are non-root nodes with reference count exactly one, so the sort cannot reorder them |
| PagePool.EvictLeafOk | engine/kv_cache.py:793-807 | each evicted leaf frees a page and touches no page of a surviving owner |
| PagePool.EvictOk | engine/kv_cache.py:770-809 | eviction keeps the invariant and every owner's rows; a positive result means the free list grew; it is zero exactly when nothing was asked or nothing can go |
| PagePool.CandidatesExactly | engine/kv_cache.py:776-792 | the candidates are all leaves with pages, inserted at most once, one of whose pages only the tree holds, once each and in tree order |
| PagePool.EvictTakesExactly | engine/kv_cache.py:793-809 | eviction takes the first k candidates: their listed pages are the count, the first k-1 list fewer than needed, and the count reaches what is needed unless all went; every other node stays as it was |
| Allocator.AllocBlocksOk | engine/kv_cache.py:719-741 | success gives `count` distinct pages held once by the caller; failure leaves none of them allocated; other owners keep pages, rows and privacy |
| Allocator.AllocLoopOk | engine/kv_cache.py:720-740 | the same at any point of the loop, for the pages found so far |
| Allocator.OomExactly | engine/kv_cache.py:725-734 | one page is refused exactly when the free list is empty, ids are used up and no leaf is evictable |
| PoolLaws.AllocTakesExactly | engine/kv_cache.py:719-741 | pages come off the top of the free stack, then in id order, with one reference each and nothing else changed; only when those are used up does it evict, for exactly the number still missing, and it gives everything back if that freed nothing |
| Supply.AllocSucceedsExactly | engine/kv_cache.py:719-741 | an allocation succeeds exactly when some sequence of leaf evictions, in any order, would leave that many pages unallocated: evicting greedily and late loses nothing |
| Allocator.CowOk | engine/kv_cache.py:671-692 | afterwards the page is private to its owner with the same rows, and every owner still finds its old rows on its old pages |
| Allocator.CowStrandsExactly | engine/kv_cache.py:676-691 | the old page ends allocated without a reference exactly when the copy evicted a leaf that was its only other holder |
| Allocator.CowStrandsHere | engine/kv_cache.py:676-691 | a full pool in which the copy strands the page: allocated, no reference, on no list and not free |
| PrefixTree.WalkIsLongest | engine/kv_cache.py:102-111 | the walk stops at the longest prefix that is a node |
| PrefixTree.NodeIsFound | engine/kv_cache.py:122-128 | every node is reached by walking its own path |
| PrefixTree.SurvivorsAreFound | engine/kv_cache.py:770-809 | whatever survives eviction is reached by the same walk, with unchanged pages and rows |
| PrefixTree.HitIsNode | engine/kv_cache.py:255-304 | a hit is the deepest node on the prompt's path, with exactly the pages of its own length, and logits when nothing remains |
| PrefixTree.LookupExactly | engine/kv_cache.py:255-304 | a lookup hits exactly when the deepest node on the prompt's path has pages for its length, and logits if nothing of the prompt remains; it returns that node |
| PrefixTree.MatchOk | engine/kv_cache.py:294-312 | a hit makes the caller one more owner of its pages and changes nothing else |
| PrefixTree.InsertOk | engine/kv_cache.py:314-338 | afterwards the prompt's node owns the request's pages; counts balance and no other node or owner sees a changed page |
| TreeRuns.InsertExactly | engine/kv_cache.py:113-120 | an insert counts every node of the path once, creates the missing ones without pages, gives the last one pages and logits, and changes no other node |
| TreeRuns.ChildIsLast | engine/kv_cache.py:113-120 | a new child comes after everything below its parent, as a dictionary appends it |
| TreeRuns.RunPreorder | engine/kv_cache.py:776-792 | in every reachable state the order that eviction goes by is a depth-first order of the tree |
| TreeRuns.StoredPromptIsHit | engine/kv_cache.py:255-338 | from a new engine: a prompt delivered after its prefill is hit, after any run in which its node stays, by every prompt that leaves the tree there, and an admission then starts with its rows and pages |
| TreeRuns.TwiceStoredStays | engine/kv_cache.py:778 | a node inserted twice stays in every run, with its pages |
| Preparing.TreeGrowsExactly | engine/scheduler.py:169-190 | the tree grows by exactly the missing nodes of a prompt's path when its first token after a prefill is delivered, and at no other step |
| Preparing.EvictsOnlyWhenDry | engine/runner.py:1976-1979 | preparation evicts nothing and succeeds while free and new ids suffice for the pages the table lacks and for one copy |
| Preparing.EnsureExactly | engine/runner.py:1976-1979 | a table grows to exactly the pages it needs; it can grow exactly when that many can be given by some choice of evictions |
| Preparing.PrefillPrepared | engine/runner.py:1130-1132 | so does the table of a prefill, its own pages first and the rest private |
| Preparing.DecodePrepared | engine/runner.py:1219-1229 | a decode takes a page exactly when its table ends or its page is shared, and is refused exactly when none can be given; a shared page is swapped for a private one with the same rows, and otherwise nothing changes |
| Generation.ExtendIsKV | engine/runner.py:1130-1147 | rows computed on top of cached rows are the rows computed from scratch |
| EngineSafety.AdmitOk | engine/scheduler.py:88-138 | admission with an exact or aligned hit keeps contents of every request and node |
| EngineSafety.PrepareOk | engine/runner.py:1219-1229 | page growth and copy-on-write before a forward keep contents and make the page to be written private |
| EngineSafety.BurstOk | engine/runner.py:962-975 | a burst step that skips the page check keeps contents; a first skip is recorded |
| EngineSafety.ForwardOk | engine/runner.py:1133-1147 | a prefill or decode forward writes this request's rows and disturbs no other reader |
| EngineSafety.DeliverOk | engine/scheduler.py:169-206 | after delivery the prompt's node holds that prompt's rows and logits |
| EngineSafety.FinishOk | engine/scheduler.py:208-223 | finishing releases the table and keeps everything else |
| EngineBalance.ApplyInv | engine/kv_cache.py:719-809 | every step of the engine, with any hit and any burst, keeps reference counts equal to owner counts, owner lists duplicate-free and the id partition |
| EngineBalance.RunInv | engine/scheduler.py:88-223 | so does every run from a new engine |
| EngineBalance.CountsAreOwners | engine/kv_cache.py:719-768 | in every reachable state, whatever hits, bursts and losses came before, a count is the number of listing owners, no owned page is free, free, allocated and never-issued ids partition the pool, and a finished request holds no pages |
| EngineBalance.DecodeAppendsOneRow | engine/runner.py:1219-1256 | in any balanced state growth, copy-on-write and write extend one request by one row; every other live request and surviving node reads what it read before |
| ColdBursts.BurstSparesRequestExactly | engine/runner.py:962-979 | after an unchecked burst step another request keeps its rows exactly when it does not read the written cell or reads the same row there |
| ColdBursts.BurstSparesNodeExactly | engine/runner.py:962-979 | the same for a stored prompt |
| ColdBursts.BurstCold | engine/runner.py:962-975 | a burst that starts where nobody else reads keeps it so |
| ColdBursts.ForwardCold | engine/runner.py:962-979 | no forward of any request comes to read or write another request's burst cells |
| SharedPages.ApplyStrata | engine/kv_cache.py:255-338 | readers of one page have it at the same place, and it is full for both or their prompts are equally long; every step keeps this |
| SharedPages.FirstBurstIsClear | engine/runner.py:928-971 | right after a first token from stored logits nobody reads past the prompt in its last page, when no other live request has run |
| EngineRuns.ApplyOk | engine/scheduler.py:88-223 | every safe step keeps balance, contents and the burst cells |
| EngineRuns.RunIsSound | engine/scheduler.py:88-223 | every state of every safe run: every live request reads the rows of its own history, every node holds its own path's rows and logits |
| EngineRuns.OutputIsReference | engine/runner.py:1005-1047 | cache transparency: each output is what decoding the prompt alone without cache produces |
| EngineRuns.HitIsRecomputed | engine/kv_cache.py:255-312 | any hit in any reachable state, aligned or not, returns the recomputed rows and the logits of the matched tokens |
| Serving.LoneBurst | engine/loop.py:619-637 | a burst of a lone batch always starts where nobody else reads |
| Serving.BatchIsBatchable | engine/scheduler.py:231-264 | when no running request is half done, which every pump of ServingLoop restores, the next batch has distinct live members and its prefill flags agree with what is cached |
| Serving.ServeKeeps | engine/scheduler.py:88-264 | with exact or aligned hits, every run of admissions, batches, runner steps, bursts and endings keeps scheduler and engine sound |
| Serving.AnswersAreReference | engine/loop.py:591-753 | in every such run each output and each answer is the reference generation of its own prompt |
| Serving.HitsAreRecomputed | engine/kv_cache.py:255-312 | and each hit returns recomputed rows and logits |
| LoopEngine.ReportActKeeps | engine/loop.py:437-494 | reporting what the engine delivered, with the stop rules, leaves the told output a prefix of the delivered one, and equal to it at the end |
| LoopEngine.ActsKeep | engine/loop.py:206-766 | so does every history of submits, cancels, timeouts, drains, admissions, batches, runner steps, reports, failures and raising bursts, with exact or aligned hits and no tokens lost |
| LoopEngine.ClientsGetReference | engine/loop.py:206-766 | in every such history each length or stop answer on a client's queue is the reference generation of a prompt made under its request id |
| UnalignedHits.PrefillSparesExactly | engine/runner.py:1130-1147 | a reader survives a suffix prefill exactly when the prefill puts the same row into every cell they share, for any model |
| UnalignedHits.AgreementSpares | engine/runner.py:1130-1147 | equal tokens up to every shared cell suffice |
| UnalignedHits.AgreementExactly | engine/runner.py:1130-1147 | and are the exact condition where the model tells the compared prefixes apart |
| UnalignedRun.UnalignedHitClobbers | engine/runner.py:1296-1305 | three requests after which a stored prompt's hit returns another prompt's row |
| UnalignedRun.ColdBurstClobbers | engine/runner.py:962-979 | a repeated prompt whose burst overwrites a row of a longer stored prompt, after one unaligned hit |
| RadixCacheImpl.RadixCache.constructor | engine/kv_cache.py:134-253 | an empty pool of at least one zeroed page, nothing issued |
| RadixCacheImpl.RadixCache.ReleaseBlocks | engine/kv_cache.py:743-768 | in-place release equals its value function |
| RadixCacheImpl.RadixCache.ForkBlocks | engine/kv_cache.py:662-669 | in-place fork returns its argument and adds the references |
| RadixCacheImpl.RadixCache.Evict | engine/kv_cache.py:770-809 | the candidate scan and eviction loop equal their value function, count included; EvictTakesExactly says which leaves that is |
| RadixCacheImpl.RadixCache.AllocateBlocks | engine/kv_cache.py:719-741 | the allocation loop with roll-back equals its value function; AllocTakesExactly and AllocSucceedsExactly say what that gives and when |
| RadixCacheImpl.RadixCache.CowBlockIfShared | engine/kv_cache.py:671-692 | in-place copy-on-write equals its value function |
| RadixCacheImpl.RadixCache.MatchPrefix | engine/kv_cache.py:255-312 | the walk with its ancestor scan equals the lookup on the node reached; LookupExactly says when that is a hit |
| RadixCacheImpl.RadixCache.InsertOrUpdate | engine/kv_cache.py:314-338 | the path loop and re-paging of the final node equal their value function |
| RadixCacheImpl.RadixCache.WriteKv | engine/kv_cache.py:525-560 | the span loop writes exactly the row-by-row result, or refuses a missing or short table unchanged |
| RadixCacheImpl.RadixCache.ReadRows | engine/kv_cache.py:474-509 | the span loop returns the flat rows exactly when the table is long enough |
| RadixCacheImpl.RadixCache.ReadGathered | engine/kv_cache.py:562-594 | so does the gather form |
| EngineCoreImpl.EngineCore.AddRequest | engine/scheduler.py:122-136 | in-place admission equals the state-machine step |
| EngineCoreImpl.EngineCore.EnsureBlocks | engine/runner.py:1976-1979 | the growth loop equals its value function |
| EngineCoreImpl.EngineCore.Prepare | engine/runner.py:1219-1229 | in-place preparation equals the state-machine step |
| EngineCoreImpl.EngineCore.PrepareInBurst | engine/runner.py:962-975 | so does preparation inside a burst |
| EngineCoreImpl.EngineCore.RunForward | engine/runner.py:1356-1390 | so do reading, extending, writing and sampling |
| EngineCoreImpl.EngineCore.DeliverToken | engine/scheduler.py:169-206 | so does delivery |
| EngineCoreImpl.EngineCore.MarkFinished | engine/scheduler.py:208-223 | so does finishing |
| BatchRun.RunBatch | engine/runner.py:1005-1047 | run_batch takes exactly the planned steps (stored first tokens, prefill groups, decode groups, each in order of first appearance) and gives every unfinished member the token that follows its own history; it stops early only at a member that finds no free page, no unused id and no leaf to evict |
| BatchRun.GroupByCached | engine/runner.py:1049-1073 | groups of equal cached length, in order of first appearance, in batch order inside |
| BatchRun.BatchPrefill | engine/runner.py:1087-1131 | pages for all, then all forwards, when cached and suffix lengths agree; one member after the other otherwise |
| BatchRun.RunTogether | engine/runner.py:1219-1241 | pages for all members, then their forwards: every prepared member still has its pages |
| BatchRun.ForwardGives | engine/runner.py:1231-1241 | a prepared member always gets a token, and it is the one its own history determines |
| BatchRun.PrepareRefused | engine/runner.py:1976-1979 | page preparation fails only on an exhausted pool |
| BatchPlans.GroupsExactly | engine/runner.py:1049-1073 | two members are in one group exactly when their cached lengths are equal; groups are in order of their first members, and each is in batch order |
| BatchPlans.PlanTakesEachOnce | engine/runner.py:1005-1073 | the plan forwards every unfinished member once and prepares its pages once, unless its first token comes from stored logits |
| Scheduling.BatchShape | engine/scheduler.py:231-264 | a batch is all running requests and then a prefix of the queue; its uncached prompt tokens stay in budget unless it is one lone oversized prefill; it is filled: the next request is left out only for want of room, of budget, or because its prompt exceeds what is left of it |
| Scheduling.RunningPicked | engine/scheduler.py:239-246 | when the running requests fit, the decode part is exactly the running list |
| Scheduling.StepKeeps | engine/scheduler.py:148-167 | a step keeps: each admitted unfinished request once in exactly one list, queue in arrival order, running within both limits |
| Scheduling.RunKeeps | engine/scheduler.py:88-223 | so does every run of add, step, cancel, finish and progress |
| Scheduling.NoStarvation | engine/scheduler.py:231-246 | in every reachable state each running request is in the next batch |
| Scheduling.BusyMakesBatch | engine/scheduler.py:231-264 | a busy scheduler forms a non-empty batch exactly when it has capacity |
| EngineLoopImpl.Scheduler.FormBatch | engine/scheduler.py:231-264 | the budget loops compute the value function, flags included; BatchShape says which batch that is |
| EngineLoopImpl.Scheduler.Step | engine/scheduler.py:148-167 | the in-place step equals its value function, flags included |
| EngineLoopImpl.Scheduler.AddRequest | engine/scheduler.py:88-138 | refused when the queue is full or the prompt too long, else queued |
| EngineLoopImpl.Scheduler.MarkFinished | engine/scheduler.py:208-223 | leaves both lists and frees the request id |
| EngineLoopImpl.Scheduler.Cancel | engine/scheduler.py:140-146 | cancels a live request and reports whether there was one |
| Limits.EosAlreadyStopped | engine/loop.py:437-464 | the second end-of-sequence test of the burst path can never fire |
| Limits.GoesOnExactly | engine/loop.py:437-494 | a request goes on exactly when its output is below the limit, the token is not its stop token and the text contains no stop string |
| Limits.StopsWith | engine/loop.py:445-488 | otherwise the limit comes first, then the token, then the strings; what is kept is the output at the limit, without the stop token, or cut before the first listed stop string that occurs |
| Limits.JudgedTogether | engine/loop.py:642-679 | the tokens of a burst go on exactly when the whole output is below the limit, none of them is a stop token and the whole text contains no stop string; else the verdict is that of the first offending token |
| StopRules.ApplyStops | engine/loop.py:437-494 | the scan over the stop strings and the popping loop compute the verdict |
| StopRules.LeaksExactly | engine/loop.py:473-488 | what is kept before a stop string contains another one exactly when one listed later ends inside it |
| StopRules.OneStopIsEnough | engine/loop.py:473-488 | never with one stop string |
| StopRules.SingleStepsLeakNothing | engine/loop.py:473-488 | nor when every token was judged before the next |
| StopRules.BurstLeaksStop | engine/loop.py:642-671 | a burst of two tokens that is answered with a stop string in it, which single steps would have cut |
| LoopSafety.SubmitKeeps | engine/loop.py:206-240 | submission under a fresh id keeps: an open delta queue has no final frame and an attended request, a closed one exactly one final frame, last |
| LoopSafety.CancelReqKeeps | engine/loop.py:242-261 | so does cancellation, live or queued |
| LoopSafety.TimeoutKeeps | engine/loop.py:358-367 | so does a timeout |
| LoopSafety.AdmitAllKeeps | engine/loop.py:284-356 | so does admission of everything queued |
| LoopSafety.DeliverOneKeeps | engine/loop.py:437-494 | so does delivering any number of tokens to one member |
| LoopSafety.PumpKeeps | engine/loop.py:591-753 | so does one pump, whether the runner gives tokens, fails, or raises out of a burst, which keeps tokens and sends no frame |
| Draining.PumpLowersWork | engine/loop.py:591-753 | pumping a busy loop strictly lowers tokens owed plus queue, also when the pump raises |
| Draining.DrainEnds | engine/loop.py:755-766 | as many pumps as there is work leave the loop idle, pumping on after each raise |
| Draining.IdleIsClosed | engine/loop.py:263-282 | an idle loop has closed every delta queue with one final frame, last |
| Draining.DrainAnswersEveryone | engine/process.py:347-360 | pumping on, also after each raise, answers every submitted request exactly once |
| RaisedDrains.RaiseLeavesOpen | engine/loop.py:630-640 | a pump that raises sends no frame after admission and leaves its request live, its queue open without an ending, with more tokens than it was told |
| RaisedDrains.DrainAnswersExactly | engine/loop.py:755-766 | a drain, which stops at a raise, ends idle and answers every request exactly once if and only if none of its pumps raises; otherwise a live request is left unanswered |
| RaisedDrains.HistoryWired | engine/loop.py:206-367 | every history without a timeout of a still queued request keeps the delta queue of every live request registered |
| Draining.HistoryKeeps | engine/loop.py:206-766 | the loop invariant holds after every history of submits, cancels, timeouts, admissions and pumps, raising ones included; a timeout may fall between admission and batch |
| Draining.DrainRefuses | engine/loop.py:168-218 | once draining has begun no event opens a new delta queue |
| Draining.LostExactly | engine/loop.py:284-300 | a submitted request is lost exactly when its id was cancelled before, whatever else is queued |
| Telling.HistoryIsHonest | engine/loop.py:206-766 | over every history in which no burst raises: a live request's output has no stop token and no stop string and is what its deltas told; a `length` answer has exactly the token limit, a `stop` answer at most; cancelled and timed-out endings go only to those |
| Telling.RaiseKeepsRulesExactly | engine/loop.py:630-640 | after a raise the outputs keep the stop rules exactly when none of the unjudged tokens breaks them |
| Telling.SubmitExactly | engine/loop.py:206-240 | a submission is queued with an empty delta queue unless the loop drains, the prompt is empty or the limit is zero |
| Telling.AdmitExactly | engine/loop.py:284-356 | admission drops a request cancelled before, refuses one with a final error when queue or prompt is too long, and else queues it with its hit under a new id |
| Telling.StopTells | engine/loop.py:242-261 | a cancel ends with `cancelled` and a timeout with `timeout`, once, and only if the queue was open |
| Telling.FailTells | engine/loop.py:603-617 | a failed batch ends each member with an error and its output so far |
| Telling.DeliverTells | engine/loop.py:437-494 | a delivery sends exactly its tokens while the rules pass, and else the final frame with the kept output, `length` exactly at the limit |
| Telling.BurstIsFull | engine/loop.py:619-639 | a lone decode is extended up to the burst size or the token limit, whichever comes first, and nothing else is |
| Pumping.PumpGivesExactly | engine/loop.py:591-753 | a pump that does not raise admits everything queued; then each running request and each that joins the batch gets exactly one token, or a lone decode its whole burst, or all fail with the runner; tokens are told as a delta exactly when they pass the rules, and every other request and client is left alone |
| EngineLoopImpl.EngineLoop.Submit | engine/loop.py:206-240 | in-place submission equals its value function |
| EngineLoopImpl.EngineLoop.Cancel | engine/loop.py:242-261 | so does cancellation |
| EngineLoopImpl.EngineLoop.Expire | engine/loop.py:358-367 | so does a timeout |
| EngineLoopImpl.EngineLoop.BeginDrain | engine/loop.py:168-183 | so does the start of draining |
| EngineLoopImpl.EngineLoop.AdmitPending | engine/loop.py:284-356 | so does the admission loop |
| EngineLoopImpl.EngineLoop.Deliver | engine/loop.py:437-494 | so do the stop rules, stop strings included, and the frame of one member |
| EngineLoopImpl.EngineLoop.PumpOnce | engine/loop.py:591-753 | so does one pump; it raises exactly for a lone decode whose burst does, and reports no work only for an empty batch |
| EngineLoopImpl.EngineLoop.PumpUntilIdle | engine/loop.py:755-766 | the drain loop equals the drain that stops at a raise, ends within the work owed, and either closes every queue or leaves a live request unanswered |
| Bursts.BurstIsSinglesExactly | engine/loop.py:619-691 | a pump whose burst finds its pages is a number of single steps exactly when the first token does not stop the request with burst tokens to come |
| Bursts.FallenIsSinglesExactly | engine/loop.py:634-639 | a pump whose burst raises leaves the state of a number of single steps exactly when the first token does not stop the request and no token is lost with the ring |
| Bursts.LengthBurst | engine/loop.py:637-691 | a length-only burst that completes stays within the limit, keeps the cached length, and ends for length exactly at the limit |
| Bursts.BurstsAreSingles | engine/runner.py:737-784 | any sequence of sizes of bursts that complete gives the output, finish reason and cached length of single stepping |
| Bursts.ProduceFull | engine/runner.py:773-784 | a burst whose pages are found has all its tokens unless its last one is the break token, which no earlier one is |
| Bursts.BurstOnHost | engine/runner.py:773-784 | the host loop produces the greedy tokens, cut at the break token; it raises exactly when it needs more forwards than find their pages, and has kept the tokens before |
| Bursts.BurstOnDevice | engine/runner.py:914-1002 | the device ring produces the same tokens and leaves the rest of the ring alone; if it raises, the ring holds the tokens and none is returned |
| BurstRun.BurstRefusedExactly | engine/runner.py:962-971 | the page check of a burst step fails exactly when it needs a page of an exhausted pool, and then changes nothing; else it takes at most that one page |
| BurstRun.StepTells | engine/runner.py:972-984 | in any balanced state a burst step's token is what the model gives after the rows the request reads and the row of its last token |
| BurstRun.BurstRaisesExactly | engine/runner.py:958-1002 | a burst raises exactly when one of its steps, reached without the break token, needs a page and finds the pool exhausted; it appends one token per row and spares all other requests |
| BurstRun.BurstGoesOn | engine/runner.py:958-1002 | a burst over the pool takes every step it was asked for unless it breaks, at the first break token, or raises at the first wall |
| BurstRun.RoomIsEnough | engine/runner.py:962-971 | one page that needs no eviction per page boundary of the burst, and one for a copy that is due, are enough |
| BurstRun.CoveredNeverRaises | engine/runner.py:1976-1979 | so are pages for prompt and token limit beyond those already covered, whatever the burst size |
| BurstRun.BurstIsSound | engine/runner.py:958-1002 | a burst whose first step is safe leaves the engine sound, whether it raises or not |
| BurstRun.LossIsHarmlessExactly | engine/runner.py:997-1001 | a raise that drops tokens leaves the engine sound, and rows and tokens in step, exactly when it drops none |
| BurstRun.RunBurst | engine/runner.py:914-1002 | the in-place burst equals its value function; on the device path a raise drops the tokens and keeps rows and cached length |
| EnginePump.AdmitEveryKeeps | engine/loop.py:284-318 | admission over the engine is the loop's admission with the hits the tree has, and leaves everything settled |
| EnginePump.GiveMember | engine/loop.py:693-753 | appending, judging and reporting a member's token is the loop's delivery of that token, and leaves the member settled and loop and engine agreed |
| EnginePump.IdleAnswers | engine/loop.py:755-766 | a settled idle loop has closed every queue once, and each length or stop answer is reference generation |
| ServingLoopImpl.ServingLoop.constructor | engine/loop.py:57-120 | a new loop over a new engine is settled |
| ServingLoopImpl.ServingLoop.Submit | engine/loop.py:206-240 | submission is the act of the value machine and keeps everything settled |
| ServingLoopImpl.ServingLoop.Cancel | engine/loop.py:242-261 | so is cancellation, pages included |
| ServingLoopImpl.ServingLoop.Expire | engine/loop.py:358-367 | so is a timeout |
| ServingLoopImpl.ServingLoop.AdmitPending | engine/loop.py:284-356 | the admission loop over scheduler and engine equals its value function |
| ServingLoopImpl.ServingLoop.LoneBurst | engine/loop.py:630-691 | first token, burst, rules and frame of a lone decode; it raises exactly when its burst meets a wall, and stays settled unless tokens are lost |
| ServingLoopImpl.ServingLoop.WorkBatch | engine/loop.py:595-753 | scheduler step, runner and deliveries are one batch of the loop machine for the outcome the engine dictates; the batch fails only if its plan starves |
| ServingLoopImpl.ServingLoop.PumpOnce | engine/loop.py:591-753 | a whole pump over the engine is a pump of the loop machine with real hits and outcome; it raises exactly when the burst of its lone decode meets a wall on the exhausted pool, and ends settled unless tokens are lost |
| ServingLoopImpl.ServingLoop.PumpUntilIdle | engine/loop.py:755-766 | the drain over the engine ends within the work owed: idle, settled and with every queue closed, or raised on an exhausted pool with a live request unanswered |
| ServingLoopImpl.CoveredPumpReturns | engine/runner.py:1976-1979 | a pump returns if pages that need no eviction cover the whole request |
| LostBurst.QueueLeftOpen | engine/loop.py:630-640 | a run on five pages whose drain raises: the pool exhausted, the request live, its queue open with one delta only, rows and tokens out of step |
| LostBurst.WrongLengthAnswer | engine/runner.py:997-1001 | the same run after a cancel and one more pump: a `length` answer whose third token follows a stale one, not the reference unless the model gives the same token there |
| DecodeMeta.MetaAddresses | engine/kernel_backend.py:409-434 | the lists address every cached position on its own page, and the last fill adds up to the length |
| DecodeMeta.PageMetadata | engine/kernel_backend.py:409-434 | the list-building loop computes them, or fails for an empty sequence or a short table |
| DecodeMeta.MetaExactly | engine/kernel_backend.py:409-434 | they exist exactly when no sequence is empty and every table has the pages of its length |
| DecodeMeta.NextCapacity | engine/kernel_backend.py:283-287 | the doubling loop gives a capacity that suffices and is less than twice the need |
| DecodeMeta.DecodeBuffers.EnsureStatic | engine/kernel_backend.py:270-297 | buffers are replaced, with the next generation, exactly when missing or too small |
| DecodeMeta.DecodeBuffers.Refill | engine/kernel_backend.py:531-538 | after a refill or a skipped refill both buffers hold the page list |
| DecodeMeta.DecodeBuffers.PlanDecode | engine/kernel_backend.py:513-552 | the single-token path leaves the recomputed page view and append position, and replaces the buffers exactly when missing or too small |
| DecodeMeta.DecodeBuffers.BeginForward | engine/kernel_backend.py:499-552 | whatever forwards came before, the active view equals the recomputed metadata; the single-token path is taken exactly for one decode of one token, and the buffers change exactly when they are then missing or too small |
| GraphGate.MaybeRunKeeps | engine/cuda_graph.py:337-415 | every call keeps: full warmup, one capture, only replays since the last reset; capture bound to one generation and capacity |
| GraphGate.RunKeeps | engine/cuda_graph.py:328-415 | so does every interleaving of forwards, reallocations and resets |
| GraphGate.ReplayIsSound | engine/cuda_graph.py:371-415 | a replay uses the generation and capacity of the capture with the active pages inside it, after a full re-warmup |
| GraphGate.CallExactly | engine/cuda_graph.py:337-415 | a call replays exactly when it is usable, the gate is not disabled, and the capture has this generation, this capacity and room for the active pages; a usable call forgets a capture exactly when one of the last three fails |
| GraphGate.WarmupExactly | engine/cuda_graph.py:390-411 | without a fitting capture a usable call warms up twice, then captures at this generation and capacity, or disables the gate when the capture fails |
| GraphGate.ReplayExactly | engine/cuda_graph.py:328-415 | the same for every call of every interleaving of forwards, reallocations and resets |
| GraphGate.ReplaysFromTheFourth | engine/cuda_graph.py:371-415 | over one buffer, however the active pages grow within it, two calls warm up, the third captures and all later ones replay |
| GraphGate.PagedDecodeGraph.Execute | engine/cuda_graph.py:337-415 | the in-place gate equals its value function |
| GraphGate.PagedDecodeGraph.Restart | engine/cuda_graph.py:328-335 | reset forgets the capture and the warmup and keeps the disabled flag |
| DecodeSession.Session.Forward | engine/cuda_graph.py:371-415 | a replay runs on the very page buffer the capture read, at its capacity, with this forward's pages in it; a single-token forward replays exactly when the gate is usable, enabled and holds a fitting capture, and a capture is forgotten exactly when it does not fit |
| V4Prefix.BestIsLongest | engine/v4_prefix_cache.py:227-242 | the running best is the longest stored entry that is a prefix of the prompt |
| V4Laws.BestExactly | engine/v4_prefix_cache.py:227-242 | a match is the one longest stored prompt that begins the tokens, and there is none exactly when no stored prompt does |
| V4Laws.InsertStoresExactly | engine/v4_prefix_cache.py:182-225 | an insert is refused exactly without tokens, or without buffers and pages that stand for them; else its fields take the place of the entry with its prompt, or come last while the oldest leave |
| V4Laws.StoredIsFound | engine/v4_prefix_cache.py:168-242 | what was just stored is what its own prompt finds |
| V4Laws.OthersStayExactly | engine/v4_prefix_cache.py:214-225 | another entry stays as it was, except the oldest of a full store when the prompt is new |
| V4Laws.HitGivesExactly | engine/v4_prefix_cache.py:244-265 | a hit gives a handle exactly when the entry has pages, and counts its tokens |
| V4Prefix.InsertOk | engine/v4_prefix_cache.py:168-225 | insert, replace and oldest-first eviction keep counts balanced, keys unique, size bounded and all surviving owners' rows |
| V4Prefix.TrimOk | engine/v4_prefix_cache.py:223-225 | trimming keeps the newest entries and releases the others |
| V4Prefix.HitOk | engine/v4_prefix_cache.py:244-265 | a hit makes its handle one more owner and gives it equal tables |
| V4Prefix.ReleaseHandleOk | engine/v4_dual_pool.py:59-70 | releasing a handle takes exactly its references |
| V4Prefix.ClearOk | engine/v4_prefix_cache.py:160-163 | clearing drops every entry and keeps the pages of handles in flight |
| V4Prefix.ClearReturnsPages | engine/v4_prefix_cache.py:160-163 | with all handles released, clearing returns every page not held by the prefix tree |
| V4Prefix.HitReleaseBalancedExactly | engine/v4_dual_pool.py:62-65 | hit then release restores all counts exactly when the two tables are equal |
| V4Prefix.EntryBalancedExactly | engine/v4_prefix_cache.py:190-205 | storing and releasing an entry with any two tables restores all counts exactly when there is a first table or no second one |
| V4Rows.ApplyOk | engine/v4_dual_pool.py:216-396 | every save, hit, append, release and clear keeps the promised rows of every entry and handle |
| V4Rows.RunOk | engine/v4_dual_pool.py:216-396 | so does every run |
| V4Rows.RunFromStart | engine/v4_dual_pool.py:216-396 | every run from a new store keeps every promise |
| V4Rows.SaveRecords | engine/v4_dual_pool.py:216-294 | what a save promises for its prompt starts with the rows the model gave |
| V4Rows.HitRestoresSaved | engine/v4_dual_pool.py:399-460 | after any run, a hit on a saved prompt restores exactly the saved rows, up to the buffer length |
| V4Rows.HitRestoresFromStart | engine/v4_dual_pool.py:399-460 | the same from a new store and any run before the save |
| V4Laws.SavedIsHit | engine/v4_prefix_cache.py:227-265 | a saved prompt is hit, with its logits, for as long as its entry is in the store, by any tokens that go on from it and from no longer stored prompt, and the restore writes its rows |
| V4Rows.HandleKeepsRows | engine/v4_prefix_cache.py:267-285 | until released, a handle finds its rows, whatever is evicted, replaced or appended |
| V4Rows.AppendSparesExactly | engine/v4_dual_pool.py:348-396 | an append leaves all promises intact exactly when it lies beyond them or rewrites the same row |
| V4Laws.GrowsExactly | engine/v4_dual_pool.py:330-345 | a table grows to exactly the pages of its positions, its own first, exactly when the missing pages can be given |
| V4Laws.AppendExactly | engine/v4_dual_pool.py:348-396 | an append then puts its row at its position and no other position of the table changes; without pages the handle is as it was |
| V4PrefixCacheImpl.AllocateDualPages | engine/v4_dual_pool.py:45-56 | pages for all tokens, one id list for both tables |
| V4PrefixCacheImpl.ReleaseDualPages | engine/v4_dual_pool.py:59-70 | releases through the first non-empty table and empties the handle |
| V4PrefixCacheImpl.WritePrompt | engine/v4_dual_pool.py:216-294 | fresh pages with the given rows at their front, or the pool is exhausted |
| V4PrefixCacheImpl.EnsureCapacity | engine/v4_dual_pool.py:330-345 | equal tables grow together, a separate second table gets pages of its own |
| V4PrefixCacheImpl.AppendFromModel | engine/v4_dual_pool.py:348-396 | refuses a negative position or no rows, else grows and writes one row without a copy |
| V4PrefixCacheImpl.Restore | engine/v4_dual_pool.py:399-541 | overwrites the front of the buffer with the first rows of the pages, as far as it reaches |
| V4PrefixCacheImpl.V4PrefixCache.Insert | engine/v4_prefix_cache.py:168-225 | the in-place insert equals its value function |
| V4PrefixCacheImpl.V4PrefixCache.Match | engine/v4_prefix_cache.py:227-242 | the scan returns the best entry and its length |
| V4PrefixCacheImpl.V4PrefixCache.ForkDualPoolForHit | engine/v4_prefix_cache.py:244-265 | the fork of a hit equals its value function |
| V4PrefixCacheImpl.V4PrefixCache.ReleaseEntryPages | engine/v4_prefix_cache.py:267-285 | so does the release of an entry |
| V4PrefixCacheImpl.V4PrefixCache.Clear | engine/v4_prefix_cache.py:160-163 | so does clearing |
| Ndjson.DeltasCloseOnce | control/src/http_engine.rs:138-188 | the deltas of any bytes end with exactly one terminal delta, a finish or an error |
| Ndjson.GenerateStream | control/src/http_engine.rs:138-188 | what is delivered depends only on the concatenated bytes and their end; a receiver that leaves gets a prefix, and only then is the engine cancelled |
| Ndjson.DrainLines | control/src/http_engine.rs:142-174 | the inner loop consumes exactly the complete lines |
| Ndjson.LineIsRead | control/src/http_engine.rs:142-170 | a line that does not decode is one failure, a blank one is skipped, any other is trimmed and read as JSON; the rest of the bytes follows |
| Ndjson.TrimExactly | control/src/http_engine.rs:152-156 | trimming leaves nothing exactly of white space, and else the inner text between its first and last other character |
| Ndjson.CutAnywhere | control/src/http_engine.rs:138-140 | any two ways of cutting the same bytes are the same stream |
| Ndjson.UnfinishedLineIgnored | control/src/http_engine.rs:142-176 | bytes after the last newline never change what is delivered |
| FooterPages.LayoutBijection | engine/dsv4_kv_pack.py:104-148 | the footer layout is a bijection between (slot, byte) pairs and page bytes |
| FooterPages.FooterBehindData | engine/dsv4_kv_pack.py:130-146 | a page holds the data of all its slots first and their footers behind, slot by slot |
| FooterPages.FillPage | engine/dsv4_kv_pack.py:130-146 | the two slice assignments put every byte at its place |
| FooterPages.ToPagedHnd | engine/dsv4_kv_pack.py:104-148 | whole pages holding the zero-padded tokens; refused exactly for a wrong token width |
| FooterPages.PagesDetermineTokens | engine/dsv4_kv_pack.py:104-148 | reading the pages back gives the tokens and zero padding exactly |
| FooterPages.TokensDeterminePages | engine/dsv4_kv_pack.py:104-148 | no byte of a page is left undetermined |
| FooterPages.PaddedSize | engine/dsv4_kv_pack.py:116-126 | whole pages, with less than one page of padding |
| FooterPages.WindowReads | engine/v4_sparse_mla.py:60-92 | a window index addresses, byte for byte, the packed row it names in its own batch entry |
| FooterPages.CompressedReads | engine/v4_sparse_mla.py:60-92 | so does a compressed index |
| FooterPages.SplitCounts | engine/dsv4_kv_pack.py:151-175 | the two lengths add up to the valid indices of the row; the compressed one counts the entries valid after the subtraction exactly when none lies below the window |
| MoeDispatch.PlanRange | engine/model_loader.py:49-59 | a rank's range ends where the next one starts, and the last ends at the expert count |
| MoeDispatch.SomeRank | engine/model_loader.py:49-59 | every expert is in some rank's range |
| MoeDispatch.OneRank | engine/model_loader.py:49-59 | and in no other |
| MoeDispatch.RankForward | engine/v4_moe_fast.py:79-101 | the activated-expert loop computes the sum over the rank's range |
| MoeDispatch.RanksSumToDense | engine/v4_moe_fast.py:79-106 | for distinct experts the ranks sum to the dense sum over all routed pairs |
| MoeDispatch.CountedOnceExactly | engine/v4_moe_fast.py:98-101 | every routed pair counts once exactly when the row routes to distinct experts |

## Left out

- Numerics: kernels, packing values, attention and sampling math. Rows, logits and tokens are opaque; sampling is a function of logits, request seed and output index.
- Layers: the K, V, packed and restore pools of all layers at one position are one row of one grid. Layer counts, layer keys and the MLA pool shapes are not modelled.
- HF snapshots (`past_kv`), static caches and the non-paged decode path: pages are the source of KV throughout.
- Hidden bookkeeping without effect on pages: `_page_len`, token and hit counters, metrics, timestamps.
- Sequence objects are records keyed by sequence id, so aliasing of one object in several lists is not visible.
- Batched forwards of several members are modelled as forwards one after the other; they write disjoint private pages.
- RadixCacheImpl.RadixCache.WriteKv: for a table with an out-of-range page id only the allocator state is framed, not which spans were written before the failure.
- EngineRuns.RunIsSound: asks that hits are exact or page-aligned and that bursts start where nobody else reads; Serving shows that the loop's bursts do. What unaligned hits do is stated by UnalignedHits.
- BatchRun.RunBatch: asks that the prefill flags agree with the cached lengths; Serving.BatchIsBatchable shows that the scheduler's do.
- LoopEngine.ClientsGetReference: asks for exact or aligned hits and that no burst that raises loses its tokens; LostBurst.WrongLengthAnswer shows why. Text deltas are the tokens reported.
- RaisedDrains.HistoryWired: excludes timeouts of requests still in the submission queue, whose delta queue closes while they go on to be admitted.
- ServingLoopImpl.ServingLoop.PumpOnce: asks that queued prompts would hit exactly or on a page boundary, and that no earlier burst lost tokens; one flag says whether the pump's burst looks at its pages every step. A timeout between admission and batch is AdmitPending, Expire, PumpOnce.
- LostBurst: rows and logits are opaque, so the run says under which inequality of the model the answer is wrong.
- Text: detokenisation is a function of the output tokens; text deltas are the tokens reported.
- Threads, locks, clocks and full delta queues: submit, cancel, timeout and pump are atomic, and a timeout is an event.
- Draining.HistoryKeeps: request ids are fresh at submission; LostExactly says what happens after an early cancel.
- Graph capture itself, FlashInfer planning and the environment switches; the mode tests of the gate are one flag.
- Runner and loop glue of the hybrid model: choice of batch slots, snapshot and clearing of module buffers, handles overwritten on a second save.
- V4Prefix.InsertOk: the store is bound to its pool from the start, and the second page table is absent or equal to the first, as every caller passes it; EntryBalancedExactly and HitReleaseBalancedExactly say what other tables do to the counts.
- V4PrefixCacheImpl.AppendFromModel: asks for a handle with one page table, as every caller makes it; with two, the rows go to two pools that are one grid here.
- V4PrefixCacheImpl.WritePrompt: the zero rows written when no layer can be extracted are an empty row list.
- MoeDispatch.RankForward: every expert of the rank's own range is present; the shared experts are added once after the reduction and are not modelled. Sums are over reals.
- Ndjson.GenerateStream: starts at the response body; a failed connection or status is one failure delta. The wording of error texts is not modelled.
- FooterPages: pages of any size, of which the engine uses 64 tokens; shape checks other than the token width.
- UTF-8 decoding, white space and JSON are functions of the line; cancelling the engine is a flag.
- Telling.HistoryIsHonest: asks that no burst raises; RaiseKeepsRulesExactly and LostBurst say what a raise does. The checks of temperature, top_p and top_k at submission are not modelled.
- StopRules.LeaksExactly: asks that the text of a longer output begins with the text of a shorter one.
- Servers, process spawning, configuration, capability probing, model registry and expert hook attachment: plumbing without state of its own.
