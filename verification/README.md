# Verified models of the disco-skip and SWARM building blocks

This project models, in Dafny, the algorithms and protocols at the heart of the repository and proves what
they are for. `dafny verify dfyconfig.toml` checks everything.

- **BLAKE3** (`Bits`, `Blake3Tree`, `Blake3Levels`, `Blake3Chunk`, `Blake3Wide`, `Blake3Stack`, `Blake3Plain`,
  `Blake3Hasher`).
  The reference is the recursive tree of sections 2.1 and 2.4 to 2.6 of the BLAKE3 specification, over an arbitrary
  compression function. The incremental hasher, with its in-place chunk state, lazily merged stack of 55 slots and
  wide subtree compressor, is proved to agree with it for every message under 2^64 bytes, every way of cutting it
  up and every power-of-two SIMD degree. The reference itself is proved to be the tree in plain numbers.
- **Replicated registers** (`Registers`, `PutFutures`, `ReadFutures`, `RegisterProtocol`, `RegisterSafety`,
  `RegisterSteps`, `RegisterTheorems`, `RegisterFinish`, `RegisterSkip`, `RegisterClients`, `RegisterAlone`). The put, get and range operations are classes whose loops are proved to
  compute round functions. Those functions drive a state machine of any number of clients and servers in which
  requests execute and complete in any order, with the register cache and write-back switched on or off. The
  theorems speak of every reachable state and every run. When exactly a finished put has reached its
  whole quorum is proved for every run, and that a put left alone finishes.
- **Client loop** (`ClientLoop`). The counters and flags that decide which server is polled and which future steps.
- **Skip vectors** (`SkipVectors`, `SkipLayers`, `SkipOps`, `SkipSearch`, `SkipRemoval`, `SkipMirror`, `SkipMap`,
  `SkipCheck`). A layer is its nodes in the order of their next links. The invariant is one equation per index
  layer: its entries, read left to right, are exactly the first keys and identities of the non-orphans below, in
  order. On top of it come strict order, capacity, and emptiness only of orphans (in the mirror: only of heads).
  The mirror and the map are classes that change layers in place; the checks the structures carry themselves are
  proved to accept whatever satisfies the invariant.
- **SWARM max register and clock** (`MaxReg`, `MaxRegClient`, `MaxRegProtocol`, `MaxRegRising`, `MaxRegTruth`,
  `MaxRegSteps`, `MaxRegTheorems`, `MaxRegDrive`, `MaxRegExact`, `MaxRegReplay`, `MaxRegWitness`,
  `MaxRegRequests`, `Clock`). One slot per client and server, array reads that are not atomic, any servers skipped as lazy or dead at
  any poll, and the majority layer whose read buffer may be the very entry being replicated.
- **Cluster bootstrap** (`Bootstrap`, `BootstrapCalls`). Any number of clients and servers, one store access per
  step, any leftover "finished" marks.
- **Cycle detection, CLOCK cache, pools** (`Cycles`, `LruCache`, `Pools`, with `Sets` for index sets).

Four places where the code differs from what its comments or names suggest are followed as coded:

- `verify()` of the mirror ignores the results of its index checks.
- The early stop of `mirror_insert`, which a comment calls probably unreachable, is reached when a key is mirrored
  again with a greater height (`SkipMirror.ClimbCanStop`), and never for a new key (`SkipMirror.Mirror.MirrorInsert`).
- A put that is done may have left replicas of its quorum below its final target. `RegisterFinish.DoneMeansSwapped`
  says exactly when, and `RegisterSkip.SkippedSlotDone` is a run in which it happens.
- The max register remembers a successful compare-and-swap as whatever the entry it was made from says when the answer
  is taken in, and nothing keeps a caller from reusing that entry before. What its functions are for holds in every run
  whose operations are started by five rules (`MaxRegProtocol`), each about the client's own state but for the two
  server-side escapes of the first:
  1. a local write reuses the write entry only while each swap made from it that is still out carries at least the new
     timestamp up to the verified bit (or fails, or is at a server that holds as much);
  2. nothing starts while a swap made from a read buffer is out;
  3. a local write's timestamp is not below what the client wrote before;
  4. what is replicated was seen in this session;
  5. and no request is out to the server whose buffer is replicated.

  For writes the first rule is exact (`MaxRegExact.MisreportExactly`), and for each rule there is a run in which
  breaking it alone does harm (`MaxRegWitness`). The layer above, `OopsDataFuture`, does not always keep them:
  after a failed guess it writes a newer timestamp from the same entry (oops_data_future.hpp:203-206), and after
  a repair it writes while the replication's swaps may be out (oops_data_future.hpp:226-231).

Conventions: addresses, clocks and sequence numbers are natural numbers; where sixteen-bit wrap-around matters it is
written out. Exceptions are results (`Throws`, `Overflow`, a false flag). Heights, network order, skipped servers,
clock readings and polled completions are arbitrary inputs.

## Model

| member | source | states |
|---|---|---|
| Blake3Hasher.HashPieces | third-party/src/blake3/blake3.c:455-611 | any cutting of a message into update calls, for any power-of-two SIMD degree, ends with the requested bytes of the root output of the recursive tree over the whole message, and in every mode those of the tree written in plain numbers |
| Blake3Hasher.Hasher.Update | third-party/src/blake3/blake3.c:455-562 | one update appends its input to the message absorbed and keeps the between-updates state: merged subtrees on the stack, the rest in the chunk state |
| Blake3Hasher.Hasher.FinalizeSeek | third-party/src/blake3/blake3.c:569-611 | returns bytes seek..seek+n of the root output of the message, in every mode those of the plain tree, and leaves the hasher as it was; with a clear chunk state and a non-empty stack it finds two entries |
| Blake3Hasher.Hasher.RootOutput | third-party/src/blake3/blake3.c:579-609 | rolling the stack up over the chunk state, or over the top two entries, gives the output of the root of the whole tree |
| Blake3Hasher.OutputRootBytes | third-party/src/blake3/blake3.c:89-110 | writing block after block from a seek position inside a block yields exactly the requested slice of the extended output |
| Blake3Hasher.Hasher.MergeStack | third-party/src/blake3/blake3.c:404-413 | merges the lazily merged stack down to one entry for each one bit of the chunk count |
| Blake3Hasher.Hasher.PushCv | third-party/src/blake3/blake3.c:447-453 | at counter n the stack ends as the n chunks merged plus the new subtree on top, still unmerged |
| Blake3Hasher.Hasher.PushPair | third-party/src/blake3/blake3.c:539-546 | the two halves of a subtree go on the stack one after the other and are not merged with each other |
| Blake3Hasher.Hasher.AbsorbSubtree | third-party/src/blake3/blake3.c:503-549 | one power-of-two subtree of the input goes on the stack, as one chunk or as two child values, and the bytes absorbed grow by exactly it |
| Blake3Hasher.SubtreeLen | third-party/src/blake3/blake3.c:504-523 | the halving loop ends with the largest power of two of bytes that fits the input and divides the count so far, a whole number of chunks |
| Blake3Hasher.Hasher.TopUpChunk | third-party/src/blake3/blake3.c:469-488 | a partial chunk is completed first and leaves the chunk state only once more input follows |
| Blake3Hasher.Hasher.AbsorbTail | third-party/src/blake3/blake3.c:558-561 | what is left goes into the chunk state and the stack is merged completely |
| Blake3Hasher.DepthBound | third-party/src/blake3/blake3.h:16-38 | below 2^54 chunks the merged stack has at most 54 entries, so 55 slots always suffice |
| Blake3Hasher.TailRollUp | third-party/src/blake3/blake3.c:594-609 | with bytes in the chunk state the merged stack rolls up over that chunk to the output of the whole tree |
| Blake3Hasher.PairRollUp | third-party/src/blake3/blake3.c:597-609 | with a clear chunk state the top two entries are the halves of one subtree and the rest rolls up over their parent |
| Blake3Hasher.DeriveKeyMode | third-party/src/blake3/blake3.c:378-388 | the key for derived material, flag 64, is the first 32 bytes of the plain hash of the context under flag 32, whatever the SIMD degree |
| Blake3Hasher.KeyedMode | third-party/src/blake3/blake3.c:371-376 | a keyed hash has flag 16 and starts from words whose bytes are the key |
| Blake3Plain.HashIsPlain | third-party/src/blake3/blake3.c:110-162 | with mode flags 0, 16, 32 or 64 the tree is the plain one: blocks of 64 and chunks of 1024 bytes, splits at the first doubling of 1024 that is at least half, and flag words that add 1, 2, 3 in a chunk, 4 at a parent, and 8 more at the root |
| Blake3Plain.DomainsApart | third-party/src/blake3/internal/blake3_impl.h:13-21 | the flag words in use for a chunk's first, middle, last or only block, a parent, and the last three at the root, in the four modes, are equal only for the same mode and place |
| Blake3Plain.TreeIsPlain | third-party/src/blake3/blake3.c:151-162 | every node and chaining value of the tree is that of the plain one |
| Blake3Stack.StackLength | third-party/src/blake3/blake3.c:404-413 | the merged stack over n chunks has popcount(n) entries |
| Blake3Stack.LengthTellsTop | third-party/src/blake3/blake3.c:404-413 | comparing the stack length with the popcount tells exactly whether the top entry completes a pair |
| Blake3Stack.MergeStep | third-party/src/blake3/blake3.c:404-413 | replacing the top two entries by their parent doubles the last entry and keeps the stack a run of left-to-right power-of-two subtrees |
| Blake3Stack.RollUpIsTree | third-party/src/blake3/blake3.c:592-609 | rolling the merged stack up over the output of what follows is the output of the recursive tree |
| Blake3Levels.TreeIsLayered | third-party/src/blake3/blake3.c:157-162 | the recursion on left_len and pairing up chunk values layer by layer agree on every input |
| Blake3Levels.ConcatRepresents | third-party/src/blake3/blake3.c:304-320 | two rows that represent adjacent halves represent the whole side by side |
| Blake3Wide.CompressSubtreeWide | third-party/src/blake3/blake3.c:264-321 | for any power-of-two degree the row returned collapses to the two child values of the plain recursion, is at least two wide beyond one chunk, and no root compression happens |
| Blake3Wide.CompressSubtreeToParentNode | third-party/src/blake3/blake3.c:333-360 | condensing the wide row in place leaves exactly the chaining values of the two children of the top node |
| Blake3Wide.CombineRows | third-party/src/blake3/blake3.c:309-320 | one layer of parents over both rows, except that two single values are kept apart |
| Blake3Wide.CondenseRow | third-party/src/blake3/blake3.c:354-358 | one in-place layer of parents over the first values of the buffer |
| Blake3Wide.CompressChunksParallel | third-party/src/blake3/blake3.c:168-205 | the row of chunk values of up to one machine width of chunks, the last one possibly partial |
| Blake3Wide.CompressParentsParallel | third-party/src/blake3/blake3.c:212-245 | one layer of parents, an odd value at the end passing through |
| Blake3Wide.HashMany | third-party/src/blake3/internal/blake3_portable.c:145-160 | hashing many inputs is mapping the single-input block loop over them, each into its own slot |
| Blake3Chunk.ChunkState.Update | third-party/src/blake3/blake3.c:112-140 | absorbing input makes the chunk state that of the longer chunk, however the bytes were cut, always holding back the last block |
| Bits.MaskTestsMultiple | third-party/src/blake3/blake3.c:521-523 | the mask test is zero exactly when the power of two divides the count |
| PutFutures.PutFuture.TryStepForward | disco-skip/src/put_future.hpp:168-304 | steps only when nothing is outstanding; each phase leaves exactly the data and the posted requests of the round function it refines, and Done means every slot is ticked off and the target cached |
| PutFutures.PutFuture.DoPut | disco-skip/src/put_future.hpp:121-157 | a cached register is expected at every slot at once; otherwise every slot is read |
| PutFutures.PutFuture.FinishReads | disco-skip/src/put_future.hpp:173-190 | the reads set the target one above the greatest sequence number and expect at each slot what was read there |
| PutFutures.PutFuture.FinishOptimistic | disco-skip/src/put_future.hpp:193-245 | both loops together keep the successes at the old target and aim above every failure |
| PutFutures.PutFuture.FinishCas | disco-skip/src/put_future.hpp:249-296 | the loop with its reset in the middle computes the closed form with at most one bump |
| PutFutures.PutFuture.AddToOngoingRDMA | disco-skip/src/put_future.hpp:164-166 | a completion takes exactly its request off the outstanding ones, keeping each server's count |
| PutFutures.CasUpToStep | disco-skip/src/put_future.hpp:250-285 | one iteration of the retry loop, with its three outcomes, moves the closed form by one slot |
| PutFutures.PutFuture.PostCas | disco-skip/src/put_future.hpp:91-109 | one request for each slot still needing it, with that slot's expected value |
| RegisterFinish.DoneMeansSwapped | disco-skip/src/put_future.hpp:165-300 | in every run a put is done with exactly those slots swapped to its final target that were not left out when that target was set; every replica of the quorum took it if and only if it was a cached guess that held everywhere, or was set by the reads, by an optimistic round in which nothing succeeded, or by a bump at the last slot |
| RegisterFinish.FullySetHolds | disco-skip/src/put_future.hpp:287-296 | a put whose final target was so set is done with every replica of its quorum at that target or newer |
| RegisterFinish.TakenHolds | disco-skip/src/put_future.hpp:249-296 | a replica that took a put's current target holds it or something newer from then on |
| RegisterSkip.SkippedSlotDone | disco-skip/src/put_future.hpp:258-285 | a run from the start, two clients at two servers, that ends with a put done while the replica of its second slot is below the final target and never took it |
| RegisterTheorems.TagDeterminesValue | disco-skip/src/register.hpp:19-30 | in every reachable state of any clients and replicas, two registers anywhere with the same (seq, client_id) are the same register |
| RegisterTheorems.PutsRise | disco-skip/src/put_future.hpp:121-157 | in every run a later put of a client never tries a sequence number at or below one an earlier put tried, though it may start from the cache |
| RegisterTheorems.WaitingSwapsRise | disco-skip/src/put_future.hpp:73-109 | in every run each put's compare-and-swap in flight has expected.seq < target.seq, and each write-back raises the tag |
| RegisterTheorems.ReplicasRise | disco-skip/src/register.hpp:25-28 | along every run each replica's tag and sequence number only grow |
| RegisterTheorems.PutLands | disco-skip/src/put_future.hpp:287-296 | the step that finishes a put leaves its final target or newer at a replica of the client's fixed quorum, above everything the client tried before |
| RegisterTheorems.OwnReadsNotOld | disco-skip/src/get_future.hpp:111-123 | what a client reads or caches is the greatest of its quorum's answers and never below its own last finished put |
| RegisterAlone.LeftAloneFinishes | disco-skip/src/put_future.hpp:165-300 | a put that no other client disturbs, taken up in any state, is finished after at most quorum + 2 rounds and a bounded number of steps, and until then can always take a step of its own |
| RegisterAlone.NextFits | disco-skip/src/put_future.hpp:249-296 | the slot from which on every compare-and-swap of an undisturbed round succeeds moves strictly down with each round, until the put is finished |
| RegisterAlone.OneRoundTakes | disco-skip/src/put_future.hpp:73-109 | a put whose expectations hold at its whole quorum finishes in one undisturbed round, in whatever order its requests execute and are polled, and its whole quorum then holds the target, which is cached |
| RegisterAlone.FreshReads | disco-skip/src/put_future.hpp:173-190 | a put whose quorum has not changed since it was read expects what is there and aims one above the greatest sequence number there, with its own client and value |
| RegisterAlone.FreshCache | disco-skip/src/put_future.hpp:127-152 | a put that starts from a cached register which its quorum still holds expects what is there and aims one above it |
| RegisterClients.QuorumFromOwn | disco-skip/src/disco_skip_state.hpp:105-109 | a client's quorum is the servers from its own index on around the circle, all different |
| RegisterClients.PutSends | disco-skip/src/put_future.hpp:91-109 | a round of a put in the state machine has out exactly the requests the put operation posts |
| RegisterClients.OptimisticSends | disco-skip/src/put_future.hpp:127-152 | and so has one that starts from the cache |
| RegisterClients.GetSends | disco-skip/src/get_future.hpp:106-149 | a get in the state machine ends as the get operation does and has out exactly its write-back |
| RegisterClients.RangeEnds | disco-skip/src/range_future.hpp:86-112 | a range in the state machine ends there and then with, and caches, the greatest of its answers for the key |
| RegisterClients.ServerExecutes | disco-skip/src/disco_skip_state.hpp:105-109 | a server installs a target exactly when its replica is what the request expects, and the client's slot learns what was there; nothing else changes |
| RegisterSteps.StepKeepsInv | disco-skip/src/disco_skip_state.hpp:105-109 | every step of every client and server keeps the invariant the register theorems rest on, the quorum of client c being the servers from c on |
| RegisterSteps.AfterOptimisticOk | disco-skip/src/put_future.hpp:193-245 | after the optimistic round what remains to be done is expected below the new target |
| RegisterSteps.AfterCasOk | disco-skip/src/put_future.hpp:249-296 | after a retry round, bumped or not, what remains is expected below the target, and a finished put had a real success |
| RegisterSteps.OptimisticRetargets | disco-skip/src/put_future.hpp:208-245 | after the optimistic round the target's number stays or is one above an answer that failed and was at or above it |
| RegisterSteps.CasRetargets | disco-skip/src/put_future.hpp:262-285 | and likewise after a retry round |
| PutFutures.CasRoundAsks | disco-skip/src/put_future.hpp:91-109 | a round asks exactly the slots that need it, each server at most once, for what that slot is expected to hold and with the target to install |
| Registers.OrderIsPacked | disco-skip/src/register.hpp:7-28 | registers compare as the upper half of their eight bytes does: sequence number, then client |
| ReadFutures.GetFuture.TryStepForward | disco-skip/src/get_future.hpp:106-162 | the result is the greatest register of the quorum, it is cached, and write-back is sent to exactly the slots that differ, if any does: once to each of their servers, expecting what that slot answered and installing the maximum, which is never below it |
| ReadFutures.WriteBackAsks | disco-skip/src/get_future.hpp:41-57 | a write-back asks exactly the slots that answered something else than the maximum, each server at most once |
| ReadFutures.GetFuture.GatherMaximum | disco-skip/src/get_future.hpp:112-118 | the running maximum and its count are the quorum's greatest register and how many slots hold exactly it |
| ReadFutures.RangeFuture.MergeAll | disco-skip/src/range_future.hpp:92-103 | merging the slices in place leaves in the first slice, key by key, the greatest answer of all slots and nothing else changed |
| ReadFutures.RangeFuture.FinishReading | disco-skip/src/range_future.hpp:86-112 | each result is the value of an answer for its key that no answer is above, and the cache takes each key's greatest answer |
| ReadFutures.ColumnMaxIsMaximum | disco-skip/src/range_future.hpp:97-103 | what the merge keeps is one of the answers and none is above it |
| ClientLoop.DsClient.TickRdma | disco-skip/src/disco_skip_client.hpp:41-85 | whatever a server's queue would yield, at most the counted number is polled, each completion reaches the future that posted it, and no future that is neither done nor waiting is left without its flag |
| ClientLoop.DsClient.ScanForFree | disco-skip/src/disco_skip_client.hpp:88-100 | one scan for a free future returns the first that is done, with every earlier one waiting, or leaves every one of them with something outstanding; nothing outstanding is lost |
| ClientLoop.DsClient.FinishTurn | disco-skip/src/disco_skip_client.hpp:122-136 | one turn of the draining loop polls what is ready; both futures of the index are then done or have something outstanding, one that had everything polled and finishes is done, and nothing done comes undone or is lost |
| ClientLoop.DsClient.TryStepForward | disco-skip/src/put_future.hpp:165-170 | a future steps exactly when it has nothing outstanding; it is then done or has sent exactly its next round, one request for each time a server is named in it |
| ClientLoop.OwnerComesBack | disco-skip/src/disco_skip_client.hpp:68-77 | kind and index of a future come back out of the number its requests carry |
| ClientLoop.DsClient.Balanced | disco-skip/src/disco_skip_client.hpp:41-136 | per server the count to poll is never negative and is the sum of what all futures have outstanding; a done future has nothing outstanding |
| SkipMirror.Mirror.LocateData | disco-skip/include/skipvector_disco.h:680-702 | returns the value at the greatest stored key at or below k, null when there is none |
| SkipMirror.Mirror.GatherPrevs | disco-skip/include/skipvector_disco.h:1010-1064 | at each level below the height, the address of the node a plain left-to-right scan of that layer ends at |
| SkipMirror.Mirror.CheckNext | disco-skip/include/skipvector_disco.h:343-490 | the walk ends at the node covering k |
| SkipMirror.Mirror.Descend | disco-skip/include/skipvector_disco.h:1070-1152 | the descent through down pointers ends at the node covering k at the wanted level |
| SkipMirror.Mirror.SplitAtLevel | disco-skip/include/skipvector_disco.h:1250-1352 | afterwards k starts a non-orphan there with the given address and the next level owes it a parent; nothing happens when k starts an orphan; repeating it changes nothing; every other node stays with its identity, kind, first key and address, and a new node is that one or an orphan without an address, shed only by a full head above k |
| SkipMirror.Mirror.InsertAt | disco-skip/include/skipvector_disco.h:1362-1387 | the entry joins the node covering it, which pays what the level owed; an existing key changes nothing; every node stays with its address, and only a full one gives half to a new orphan, which gets the address passed |
| SkipMirror.Mirror.MirrorInsert | disco-skip/include/skipvector_disco.h:1390-1438 | keeps the invariant, adds at most the one data entry without changing any stored value, makes boundaries only of keys supplied for their level, gives a new key a node of its own at every level below its top, and leaves every other node its identity and address; new orphans have no address, or at the top the one passed |
| SkipMirror.ClimbCanStop | disco-skip/include/skipvector_disco.h:1402-1433 | the climb's early stop is reachable: a key mirrored with height 2 into an empty mirror is the first key of the head above |
| SkipMirror.Mirror.MirrorReconcile | disco-skip/include/skipvector_disco.h:863-952 | keeps the invariant, only adds data entries, makes boundaries only of keys the descent saw for their level, leaves every node its identity and address but those that start with the boundary, and a repeat with the same arguments changes nothing |
| SkipMirror.Mirror.constructor | disco-skip/include/skipvector_disco.h:592-601 | the empty mirror satisfies the invariant |
| SkipSearch.BoundariesNest | disco-skip/include/skipvector_disco.h:1426-1431 | a boundary at one level is a boundary at every level below |
| SkipSearch.ScanFindsCover | disco-skip/include/skipvector_disco.h:343-490 | whatever way a search came, it ends where a scan from the head ends |
| SkipSearch.DownStarts | disco-skip/include/skipvector_disco.h:556-582 | the greatest entry at or below k points to a non-orphan that starts with its key |
| SkipSearch.CoverFindsLte | disco-skip/include/skipvector_disco.h:690-697 | the covering node alone decides the greatest entry at or below k of the whole layer |
| SkipOps.InsertKeeps | disco-skip/include/skipvector_disco.h:187-202 | inserting into a node, with or without an overflow orphan, puts the entry into the layer and leaves the targets alone |
| SkipOps.SplitKeeps | disco-skip/include/skipvector_disco.h:1340-1349 | splitting at a new key puts the entry into the layer and the new node among the targets |
| SkipOps.SplitAtKeeps | disco-skip/include/skipvector_disco.h:1300-1318 | splitting at a key already there changes no entry and adds the new node to the targets |
| SkipOps.ShedKeeps | disco-skip/include/skipvector_disco.h:1320-1338 | shedding the upper half of a full head changes neither entries nor targets and makes room |
| SkipVectors.FindPosition | disco-skip/include/include-cache/vector/vector_sfra.h:44-65 | the binary search finds the position of the key or where it would go |
| SkipVectors.StealHalfAndInsertIsPut | disco-skip/include/include-cache/vector/vector_sfra.h:161-239 | both halves together are the vector with the entry added, both non-empty, within capacity and of the sizes the split at the middle gives |
| SkipVectors.SplitInsertIsPut | disco-skip/include/include-cache/vector/vector_sfra.h:93-124 | both parts together are the vector with the entry added, split exactly at it |
| SkipMap.SkipVectorMap.Contains | disco-skip/include/skipvector.h:529-590 | finds exactly the stored keys with their values; all it changes is to unlink empty nodes |
| SkipMap.SkipVectorMap.InsertSeq | disco-skip/include/skipvector.h:831-939 | with any height, inserts exactly when the key is absent, and then into exactly the index layers up to the height; otherwise no layer changes what it holds; keeps the invariant |
| SkipMap.SkipVectorMap.Remove | disco-skip/include/skipvector.h:942-1095 | removes exactly the key, from every layer and with nothing else, through lazy orphaning of every node it started, and keeps the invariant |
| SkipMap.SkipVectorMap.NoRestart | disco-skip/include/skipvector.h:972-983 | the node that holds the uppermost instance of a key is never one that the level above should have pointed to, so the restart cannot happen |
| SkipMap.SkipVectorMap.FindUppermost | disco-skip/include/skipvector.h:952-1041 | the descent of remove ends at the highest level holding k, or at the data, with nothing left to merge at the node covering k on every level it came through |
| SkipMap.SkipVectorMap.FindPlaces | disco-skip/include/skipvector.h:838-885 | the descent of insert finds the covering node of every level up to the height, or the key; every level is tidied where it covers k |
| SkipMap.SkipVectorMap.CheckNext | disco-skip/include/skipvector.h:238-351 | walks to the covering node without changing what any layer holds or targets: unlinking only empty orphans, or when tidying merging until there is nothing left to merge where a search for k has to look on |
| SkipMap.SkipVectorMap.MergeRun | disco-skip/include/skipvector.h:257-308 | merges exactly when the next node is an empty orphan or, when tidying, one that fits with this one below the threshold, and goes on until that is no longer so |
| SkipMap.SkipVectorMap.Partition | disco-skip/include/skipvector.h:897-931 | the level gains the entry as the first of a node of its own, one node more, or two where a full node above the key had to shed its upper half first |
| SkipMap.SkipVectorMap.CheckNextSequential | disco-skip/include/skipvector.h:354-379 | the loading variant ends at the covering node too |
| SkipMap.SkipVectorMap.Build | disco-skip/include/skipvector.h:887-936 | partitioning below the height and joining at it leaves every layer matching the one below |
| SkipMap.SkipVectorMap.IndexedIsStored | disco-skip/include/skipvector.h:857-860 | a key found in an index layer is a key of the map |
| SkipRemoval.MergeKeeps | disco-skip/include/skipvector.h:99-132 | absorbing an orphan that fits keeps the layer's entries, targets and order |
| SkipRemoval.RemoveKeeps | disco-skip/include/skipvector.h:1060-1076 | removing a key the layer above does not point to changes no target |
| SkipRemoval.OrphanKeeps | disco-skip/include/skipvector.h:1053-1092 | removing the key a node was known by makes it an orphan and takes exactly it off the targets |
| SkipRemoval.MapPut | disco-skip/include/skipvector.h:136-148 | adding an entry to the sorted layer is insert-if-absent on the map it stands for |
| SkipRemoval.MapDrop | disco-skip/include/include-cache/vector/vector_sfra.h:315-330 | dropping a key from the sorted layer is removal on the map |
| SkipCheck.Verify | disco-skip/include/skipvector_disco.h:1562-1633 | the structure's own check accepts every structure that satisfies the invariant; its result is exactly that of the data layer |
| SkipCheck.VerifyLayer | disco-skip/include/skipvector_disco.h:1588-1633 | passes exactly when each vector is fine, only orphans are empty but for a head with nothing after it, and keys do not fall from one node to a later one |
| SkipCheck.IllFormedPasses | disco-skip/include/skipvector_disco.h:1562-1633 | a concrete structure that passes although a key is stored twice and an index entry points nowhere |
| SkipCheck.VerifyIndex | disco-skip/include/skipvector_disco.h:1742-1861 | true exactly when the trace of the layer above matches the layer below, entry by entry, and the layer itself passes |
| SkipCheck.VerifyVector | disco-skip/include/include-cache/vector/vector_sfra.h:432-453 | the vector check passes exactly the vectors within capacity with strictly increasing keys |
| MaxRegTheorems.LaterReadsSee | swarm-kv/src/relaxed_maxreg.hpp:230-275 | in every run by the rules, once a write or replication is reported linearized, every doReadTs that starts later and finishes returns a maximum that, with the verified bit, is at least what was written, when majorities overlap |
| MaxRegTheorems.LinearizedMeansHeld | swarm-kv/src/relaxed_maxreg.hpp:239-275 | in every run by the rules, what a write or replication was asked for is held, up to the verified bit, by every server counted when it is reported linearized, and a majority is counted |
| MaxRegExact.MisreportExactly | swarm-kv/src/unreliable_maxreg.hpp:430-434 | for a write that keeps the other rules, started by an idle client in any state reached by the rules: it can come to be reported while fewer than a majority hold it if and only if it is not held by a majority yet and a swap made from the write entry is still out that carries less than the new timestamp, will succeed, and is at a server that holds less |
| MaxRegExact.DrivenMisreport | swarm-kv/src/relaxed_maxreg.hpp:135-149 | how: the client writes at as many servers as it still needs, the old swap completes, and the report follows |
| MaxRegProtocol.CallerCanCheck | swarm-kv/src/unreliable_maxreg.hpp:430-434 | a caller keeps rule 1 without knowing what servers hold by letting every swap made from the write entry and still out carry at least the new timestamp |
| MaxRegWitness.FirstRuleNeeded | swarm-kv/src/relaxed_maxreg.hpp:135-149 | a run by the rules after which breaking only rule 1 can be followed by a misreport |
| MaxRegWitness.SecondRuleNeeded | swarm-kv/src/relaxed_maxreg.hpp:245-250 | a run after which a local write while a read buffer's swaps are out is reported though no majority holds it: taking over the maximum rewrites the buffer those swaps are remembered by |
| MaxRegWitness.ThirdRuleNeeded | swarm-kv/src/unreliable_maxreg.hpp:373-386 | a run after which a timestamp below an earlier one, written without looking, lowers a server's slot |
| MaxRegWitness.FourthRuleNeeded | swarm-kv/src/relaxed_maxreg.hpp:245-250 | a run after which replicating a buffer that was not read in this session is reported though no majority holds what was in it |
| MaxRegWitness.FifthRuleNeeded | swarm-kv/src/relaxed_maxreg.hpp:245-250 | a run after which replicating a buffer while its server is still being read lets a server count for a timestamp it does not hold, and a later replication is misreported |
| MaxRegTheorems.ReadSeesMajority | swarm-kv/src/relaxed_maxreg.hpp:93-99 | a finished doReadTs has seen at a majority at least what was there when it started |
| MaxRegRising.SlotsRise | swarm-kv/src/unreliable_maxreg.hpp:316-320 | no timestamp at any server ever falls, however operations are started, as long as one written without looking is not below what the client wrote before |
| MaxRegSteps.StepKeepsInv | swarm-kv/src/unreliable_maxreg.hpp:408-539 | every step, with any servers skipped as lazy or dead and array reads slot by slot, keeps what the client believes about each server true, operations being started by the rules |
| MaxRegTruth.StepOneTrue | swarm-kv/src/unreliable_maxreg.hpp:408-539 | one step of a future, taking in its answer and posting its next request, keeps true what the client believes about the server; while writing it stops only once it has seen enough there, while reading only once it has seen all that was there at the start |
| MaxRegDrive.RoundAt | swarm-kv/src/unreliable_maxreg.hpp:408-539 | polling one server until its request is answered brings the client nearer to having seen its timestamp there: the write is posted, may fail once, and then succeeds |
| MaxRegRising.OnwardLite | swarm-kv/src/unreliable_maxreg.hpp:471-536 | the next request carries no less than the slot is expected to hold |
| MaxRegRequests.RequestAsks | swarm-kv/src/unreliable_maxreg.hpp:257-393 | each step's request reads the array, swaps the slot and asks for notifications exactly as its name says, expecting what the client last knew of its slot and carrying the entry's timestamp |
| MaxRegRequests.NothingTwice | swarm-kv/src/unreliable_maxreg.hpp:215-255 | what a step comes down to when it is taken: what is known to be there, up to its verified bit, is not written again but at most its timestamp |
| MaxRegRequests.NotedForLater | swarm-kv/src/unreliable_maxreg.hpp:65-91 | what a step asked for is noted as |
| MaxRegRequests.GoesOn | swarm-kv/src/unreliable_maxreg.hpp:471-536 | a write goes on until its timestamp was seen, a replication until more than it was, and everything else is done |
| MaxRegRequests.DoneForGood | swarm-kv/src/unreliable_maxreg.hpp:188-190 | an idle future counts as done exactly if nothing more goes out from it, whatever its entry is made to say |
| MaxRegRequests.CountsFor | swarm-kv/src/unreliable_maxreg.hpp:188-194 | which servers a sweep counts: those with nothing left to do and, while writing, those where the entry was seen up to its verified bit or that are to do nothing more |
| MaxRegRequests.AnswerTells | swarm-kv/src/unreliable_maxreg.hpp:421-459 | what the client knows of its slot and of the maximum after an answer was taken in |
| MaxRegRequests.SwapSmudges | swarm-kv/src/unreliable_maxreg.hpp:424-435 | taking in a swap also writes the client's slot into the array read of the buffer the swap was made from |
| MaxRegRequests.HeardBeforeDone | swarm-kv/src/unreliable_maxreg.hpp:381-389 | a future told to replicate and read notifications is done only once its server's were read |
| MaxRegClient.UnreliableMaxReg.TryStepForward | swarm-kv/src/unreliable_maxreg.hpp:408-539 | one future's step, which waits for its swap, its array and its notifications alike and attributes a success to the entry its request was made from, refines the step function |
| MaxRegClient.UnreliableMaxReg.DoNext | swarm-kv/src/unreliable_maxreg.hpp:65-91 | what is already known to be there is not written again |
| MaxRegClient.UnreliableMaxReg.TransitionTo | swarm-kv/src/unreliable_maxreg.hpp:215-255 | likewise when the step is taken, and the request that goes out is the step's |
| MaxRegClient.RelaxedMaxReg.TryStepForward | swarm-kv/src/relaxed_maxreg.hpp:230-334 | the loop with its counters, its running maximum and the write entry that may be one of the read buffers refines the sweep over the servers |
| Clock.OopsState.NewTimestamp | swarm-kv/src/oops_state.hpp:104-119 | no timestamp is below one given out before, with any synchronizations in between; it is what the clock reads, fails exactly for a reading of 2^32 or below what was seen, and with the clock started never for the latter |
| Clock.OopsState.SyncClock | swarm-kv/src/oops_state.hpp:121-130 | started anew the clock reads three ticks above the timestamp; otherwise a newer timestamp moves the offset back exactly as far as that takes, if it takes any, and an older one moves nothing; the clock stays one round trip ahead of everything seen |
| Clock.UnpacksExactly | swarm-kv/src/tspointers.hpp:22-55 | every field comes back out of a packed timestamp, and setting the verified bit packs the same fields as verified |
| Clock.PacksExactly | swarm-kv/src/tspointers.hpp:22-38 | packing fails exactly on a field wider than 32, 24 or 7 bits and otherwise puts the fields side by side above the verified bit |
| Clock.OrderIsLexicographic | swarm-kv/src/tspointers.hpp:22-38 | packed timestamps compare as time, log id, client id, verified flag |
| Clock.PackedAboveSeen | swarm-kv/src/tspointers.hpp:22-38 | a timestamp packed from the clock is above every one seen, verified or not |
| Bootstrap.EveryRunIsSafe | disco-skip/src/main.cpp:383-398 | in every interleaving of any clients and servers, even with stale finished marks, no connect misses, no set meets an existing key, nobody is stuck; past each of the four waits a process knows that all others announced what was waited for in this run, and past the connects it holds everybody's data |
| Bootstrap.NeverThrows | conn/src/rc-exchanger.hpp:116-187 | no reachable next access throws |
| Bootstrap.NeverStuck | conn/src/rc-exchanger.hpp:168-194 | short of the end some process can take its next step |
| Bootstrap.AwaitedMarkIsNew | disco-skip/src/main.cpp:384-386 | a mark that is waited for and found was set in this run |
| Bootstrap.StepKeepsInv | disco-skip/src/main.cpp:383-398 | each step keeps the store determined by where the processes are |
| Bootstrap.DoneLeavesFinishedMarks | disco-skip/src/main.cpp:562-575 | when all are done exactly the finished marks remain, a store the next run may start from |
| Bootstrap.RunsEnd | disco-skip/src/main.cpp:383-575 | every step leaves strictly less to do, so every run is bounded |
| BootstrapCalls.RcConnectionExchanger.ConnectTo | conn/src/rc-exchanger.hpp:116-144 | connects with the data the peer published for this process, or fails without it |
| BootstrapCalls.RcConnectionExchanger.PollReady | conn/src/rc-exchanger.hpp:168-187 | one turn of the waiting loop: not there, wrong value, or there |
| BootstrapCalls.MemoryStore.Set | memstore/src/store.cpp:42-66 | sets a key unless it exists, which is an error |
| Cycles.Graph.FirstCycle | conan/generate-makefile.py:67-78 | names a node exactly when the named dependency graph has a directed cycle: the first, in the order names were added, that leads to one |
| Cycles.SearchRoots | conan/generate-makefile.py:67-78 | the search with shared visited flags finds the least root that leads to a cycle, exactly when there is a cycle |
| Cycles.IsCyclicUtil | conan/generate-makefile.py:48-64 | a found cycle is real; otherwise every node it visited is finished after all its neighbours |
| Cycles.FinishedAcyclic | conan/generate-makefile.py:61-64 | nodes finished after all their neighbours are on no cycle |
| Cycles.SameCycles | conan/generate-makefile.py:34-44 | renumbering the names keeps exactly the cycles |
| Cycles.Graph.DoneAdding | conan/generate-makefile.py:34-46 | numbers the graph faithfully, or fails exactly when an edge names an unknown target |
| LruCache.LRUCache.Put | swarm-kv/src/lru-cache.hpp:19-49 | a hit replaces the value and counts a use at the slot noted for it; a miss in a full cache evicts the key with the fewest uses, of those the first from the hand, having taken that many uses off every slot; the whole new state is given |
| LruCache.LRUCache.Evict | swarm-kv/src/lru-cache.hpp:31-42 | the hand stops at the least used slot, the first of them, having taken that many uses off every slot and one more off those it passed in its last round |
| LruCache.LRUCache.Get | swarm-kv/src/lru-cache.hpp:51-61 | a hit returns the last value put for the key and counts a use at the slot noted for it, a miss changes nothing |
| Pools.PoolAllocator.Create | memory/src/pool/pool-allocator.hpp:77-89 | hands out the first free chunk, which was not live, or nothing when none is free |
| Pools.PoolAllocator.Destroy | memory/src/pool/pool-allocator.hpp:95-105 | the chunk goes back to the front of the free list |
| Pools.PoolAllocator.NothingLost | memory/src/pool/pool-allocator.hpp:77-128 | live and free chunks always add up to all chunks |
| Pools.PoolAllocator.LiveObject | memory/src/pool/pool-allocator.hpp:130-149 | a live object is aligned and inside the buffer |
| Pools.PoolAllocator.LiveObjectsApart | memory/src/pool/pool-allocator.hpp:130-149 | live objects do not overlap |
| Pools.AdvertisedSizeFits | memory/src/pool/pool-allocator.hpp:62-66 | a buffer of the advertised size is accepted at any start address |
| Pools.PlacedTightly | memory/src/pool/pool-allocator.hpp:22-47 | chunks are as close as alignment allows, the pool starts at the first place that aligns its first object, and it is accepted exactly if its last byte lies in the buffer |
| Pools.ArenaPoolAllocator.CreatePool | memory/src/pool/pool-allocator.hpp:190-201 | a pool takes exactly up to its last byte and leaves the rest, successive pools never overlap, and the buffer's end stays put |

## Left out

- BLAKE3's compression function, its SIMD back ends and the dispatcher: uninterpreted, and one degree per run.
- Messages of 2^64 bytes or more, which overflow the 64-bit counters.
- Registers.AfterReads and its sisters take the put's value as it is; the cut to 32 bits is done by the caller.
- RegisterTheorems.PutsRise: and the other register theorems are about runs in which no sequence number reaches 65535, because the sixteen-bit number wraps (`Registers.NextSeqGrows`); at most 256 clients, one operation per key and client at a time, and the history is that of one key.
- RegisterTheorems.PutLands: does not say that every quorum replica holds the final value when a put is done, because it is false; `RegisterFinish.DoneMeansSwapped` says when it is true.
- A completion polled by the client and the steps of other keys do not interact with one key's registers and are left out of its protocol.
- Locks, sequence locks, retries and hazard pointers of the skip vectors: operations run one at a time, and of a lock only the orphan bit is kept.
- Next links are the order of a layer's nodes, a node's vector is a sequence, and a down pointer is a node's identity, so dangling pointers and reuse of freed nodes cannot be expressed.
- SkipMap.SkipVectorMap.CheckNext: takes the merge threshold as a whole number at most the capacity, which is what a threshold of at most 2 and a positive exponent give.
- The mirror's own insert_seq, get_size and promotion of orphans: leftovers or switched off. Range and for_each of the map would only add easy members.
- MaxRegTheorems.LinearizedMeansHeld: is about runs by the five rules, because without them it is false (`MaxRegWitness`). It is about one key, one slot per client and forKV without a cached timestamp; work on other keys in between is not modelled.
- MaxRegExact.MisreportExactly: is about doWrite and doWriteTsAndIn, the operations that report themselves linearized from the write entry; the other four rules have runs that show the need for them but no such equivalence.
- Logs, notifications' contents, in-place values and checksums of the max register, and everything of the Safe-Guess protocol above it, whose own comments list gaps.
- MaxRegClient.RelaxedMaxReg.TryStepForward: leaves out the progress flags, which only shape the returned value, and the phases of doRead (in-place data, its checksum and the read of the log), which carry no timestamps of their own.
- ClientLoop.DsClient.TryStepForward: takes a round that continues an operation to post at least one request, which is what an unfinished put or a range of a non-empty quorum does. `OpFuture::doRange` posts under the range bit although the future is a plain one, so its completions would reach another future; nothing calls it and it is not modelled.
- Clock.OopsState.SyncClock: takes the host clock to be past the time the timestamp stands for, so the subtraction does not wrap; the simulated server deaths are left out.
- Bootstrap.DoneLeavesFinishedMarks: is about the exchanger's keys. The machine-learning workload also sets `ml_worker_done_*` keys (main.cpp:166) that even a successful run never removes, so a second such run meets them; that workload's keys are not part of this model.
- Bootstrap.EveryRunIsSafe: leaves out crashes and keys other than finished marks left behind by a killed run; setting a key is one step, which is faithful because only its owner ever sets it.
- Cycles.Graph.DoneAdding: models the one call the script makes; a second call is not modelled.
- LruCache does not say that a stored slot number is the key's own place: while the cache fills it lags by one.
- Pools: object construction and destruction; the mask form of rounding up for powers of two is its arithmetic meaning.
- RDMA verbs, device discovery, memcached internals, latency measurement, workloads, the FUSEE driver and the build scripts.
