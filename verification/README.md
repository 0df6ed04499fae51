# Block layer and crypto layer of Linux 2.6.22.6

A Dafny model of the parts of the kernel's block layer and crypto layer that are hardest to get right,
with proofs that hold for all runs or all inputs. `dafny verify dfyconfig.toml` checks everything.

What each group of files models:

- **Barrier*** — ordered requests: the dispatch list, the draining of the scheduler, and the sequence of
  flush, barrier write and flush that a barrier turns into. A run is any sequence of submissions,
  dispatches, fetches, requeues, completions and changes of mode, in any order.
- **Deadline***, **Cfq***, **Anticipatory*** — the three I/O schedulers, with **RbTree** for the sector
  trees all use and **SectorTree** for lists of requests in sector or time order. Statistics and
  clocks appear as arbitrary values, so the results hold whatever they are.
- **Merge*** — building requests from bios, with the merge hash.
- **Completion*** — completing a request in pieces.
- **Tags** — tagged command queueing.
- **Camellia***, **Aes***, **Des*** — three block ciphers, each in the rearranged form that the kernel
  computes and in the plain form that the standard defines (`CamelliaSpec`, `AesCipher`, `DesStandard`);
  for AES also the generation of its tables.
- **Cbc***, **BlkcipherWalk**, **Scatter**, **Spots** — cipher block chaining over scattered memory.
- **Gf128***, **Gf2**, **Lrw*** — multiplication in GF(2^128) by tables and the tweaked mode on top of it.
- **Digest***, **Hmac** — MD5 and SHA-1 contexts fed in pieces, and the keyed hash.
- **Backlog** — the queue of asynchronous crypto requests with its worker thread.

State that the kernel changes in place is a class; the contract of each method gives the whole new state
as a function of the old one, and the invariants and run theorems are proved about these functions.
Modules named `...Safety`, `...Runs`, `...Bounds`, `...Drain`, `...Progress`, `...Once` and `...Order` hold the
invariants and the theorems about whole runs, and those named `...Plans`, `...Choice`, `...Slices`, `...Batches`,
`...Sweep` and `...Steps` say what a single decision is, exactly when it is taken and what it leaves alone.

Ten places where the obvious property does not hold of the code as it stands, each with the exact
condition:

- A hard-barrier mark on a request without file-system data breaks the ordering, and so does a
  file-system request inserted at the front; `BarrierShapes.ShapeSafeIff` states that these are all.
- With the tunable writes_starved at zero reads can wait for ever (`DeadlineBounds.ReadsBoundedIff`),
  although the comments in the scheduler speak of starving writes only.
- A change of class moves no queue in the service tree of CFQ, so the tree stays in the order of service
  exactly when the new class fits where the queue stands (`CfqOrder.ClassServedIff`); boosting an idle queue
  breaks it (`CfqOrder.BoostBreaksOrder`), although the comment on the tree says that it is sorted.
- Growing a tag map copies into a table whose size is capped; the copy fits exactly when the cap is not
  below the old size (`Tags.CopyFitsIff`).
- The increment table of the tweaked mode has no entry for a counter of 128 ones (`Lrw.IndexInTable`).
- That table is filled by setting bits in host words, which adds the right power of two exactly on a
  little-endian host (`LrwBits.SetBitIff`); bit 0 becomes bit 56 otherwise (`LrwBits.BigEndianMisses`).
- The scratch blocks of a cipher walk are moved to the next page when they would reach the end of theirs,
  and lie inside the allocated buffer exactly when padding and skipped bytes are within its slack
  (`Spots.SpotsFitIff`, `BlkcipherWalk.RoomyIff`, with `Spots.EndOfPageMisses`).
- When a buffer for the copy of a misaligned initial vector is refused, the walk reports the error but still
  claims all bytes; it has set up a stretch for them exactly when that was not refused
  (`BlkcipherWalk.Walk.First`), although its callers loop while bytes are claimed.
- SHA-1 decides by a 32-bit sum whether a block is full, which is right exactly when the sum does not wrap
  around (`DigestContext.ShortFitsIff`).
- The one-call keyed hash adds the block size to the length in 32 bits, and hashes the text exactly when
  that sum does not wrap around (`Hmac.InnerIff`).

## Model

| member | source | states |
|---|---|---|
| `BarrierRuns.BarrierSafe` | linux-2.6.22.6/block/ll_rw_blk.c:323-525 | In every run of submissions, dispatches, fetches, requeues, completions with any error and changes of mode: no request submitted after a barrier is given to the driver before the barrier has ended; nothing submitted before it is still unfinished when the barrier write or its flushes go out; each barrier begins once, with the flushes of the mode in force, which go out and finish before and behind the barrier write in that order and not at all otherwise; it ends once, with the first error of its stages; every request is finished or still held; and the warning and the bug check of the code never fire |
| `BarrierRuns.FlushesAround` | linux-2.6.22.6/block/ll_rw_blk.c:323-525 | While the mode is not changed: in every run the barrier write goes out behind a finished flush, and the barrier ends behind another, exactly where the mode asks for them, with the error of the first stage that failed and none otherwise |
| `BarrierProgress.NeverStuck` | linux-2.6.22.6/block/ll_rw_blk.c:478-525 | In every run, whenever the driver holds nothing and a request is on the dispatch list, the next fetch hands one out: no stage waits for something that cannot come |
| `BarrierOnce.ExactlyOnce` | linux-2.6.22.6/block/elevator.c:517-884 | In every run no request goes out before it came in or after it was finished, none is finished twice, and until it is finished it is in exactly one place |
| `BarrierOnce.RunOnce` | linux-2.6.22.6/block/elevator.c:517-884 | Every run keeps that |
| `BarrierShapes.ShapeSafeIff` | linux-2.6.22.6/block/elevator.c:548-680 | Allow one more shape of submission beside the legal ones: every run is safe exactly when file-system requests of that shape do not go to the front and other requests of it do not carry the hard-barrier mark. For every drain mode |
| `BarrierShapes.SpecialHardBreaksOrder` | linux-2.6.22.6/block/elevator.c:646-680 | A run in which a request without file-system data carries the hard-barrier mark: wherever it is inserted, the flipped colour lets a later request pass the barrier |
| `BarrierShapes.FrontBreaksOrder` | linux-2.6.22.6/block/elevator.c:558-563 | A run in which a file-system request, be it a barrier or not, is put in front of an earlier barrier and overtakes it |
| `BarrierSafety.DispatchInv` | linux-2.6.22.6/block/elevator.c:399-432 | Moving a request of the scheduler to its sorted place on the dispatch list keeps the ordering invariant: it never passes a barrier or a started request |
| `BarrierSafety.SortKeepsSweep` | linux-2.6.22.6/block/elevator.c:399-432 | Among the requests that may be sorted, the sorted place keeps the order of one upward sweep from the boundary that then starts over at the bottom |
| `BarrierSafety.DrainInv` | linux-2.6.22.6/block/elevator.c:534-546 | Draining the scheduler keeps the ordering invariant |
| `BarrierSafety.SubmitInv` | linux-2.6.22.6/block/elevator.c:548-680 | Each insertion position, with its drain, its promotion to a soft barrier and the toggled colour, keeps the ordering invariant |
| `BarrierSafety.UnflaggedIsYoung` | linux-2.6.22.6/block/elevator.c:399-432 | Requests behind the last started or soft-barrier request all belong to the newest epoch, so sorting among them cannot cross a barrier |
| `BarrierSafety.StartInv` | linux-2.6.22.6/block/ll_rw_blk.c:427-476 | Replacing the barrier by the proxies that the mode asks for keeps the ordering invariant, for each choice of flushes |
| `BarrierSafety.HeadStage` | linux-2.6.22.6/block/ll_rw_blk.c:330-357 | The stage that the colour bit assigns to the head request is its true place relative to the barrier in progress |
| `BarrierSafety.FetchInv` | linux-2.6.22.6/block/elevator.c:696-774 | Fetching the next request keeps the ordering invariant |
| `BarrierSafety.DequeueInv` | linux-2.6.22.6/block/elevator.c:778-792 | Handing a started request to the driver keeps the ordering invariant and the in-flight count |
| `BarrierSafety.RequeueInv` | linux-2.6.22.6/block/elevator.c:517-532 | A request given back re-enters in front of every request of a later stage |
| `BarrierSafety.CheckDrainedInv` | linux-2.6.22.6/block/elevator.c:858-884 | Finishing the drain stage when the last old request lands keeps the ordering invariant |
| `BarrierSafety.ProxyDoneInv` | linux-2.6.22.6/block/ll_rw_blk.c:359-401 | Finishing a proxy, including the end of the whole sequence and the forgetting of the barrier, keeps the ordering invariant |
| `BarrierSafety.CompleteInv` | linux-2.6.22.6/block/elevator.c:858-884 | Every completion keeps the ordering invariant, and a proxy only completes while a sequence is in progress |
| `BarrierQueue.RequestQueue.constructor` | linux-2.6.22.6/block/ll_rw_blk.c:286-299 | The fresh queue is the start state of every run |
| `BarrierQueue.RequestQueue.SetOrdered` | linux-2.6.22.6/block/ll_rw_blk.c:274-299 | The mode that barriers started from now on are given |
| `BarrierQueue.RequestQueue.SortPosition` | linux-2.6.22.6/block/elevator.c:399-432 | The backwards scan stops where the specification places the request |
| `BarrierQueue.RequestQueue.DispatchOne` | linux-2.6.22.6/block/elevator.c:399-432 | The whole new state is the dispatch step of the runs |
| `BarrierQueue.RequestQueue.DrainElevator` | linux-2.6.22.6/block/elevator.c:534-546 | The loop empties the scheduler, one dispatch step for each request |
| `BarrierQueue.RequestQueue.InsertAt` | linux-2.6.22.6/block/elevator.c:548-644 | The whole new state is the insertion step, for all positions |
| `BarrierQueue.RequestQueue.Admit` | linux-2.6.22.6/block/elevator.c:646-660 | The whole new state of the counts: a hard barrier turns the colour, a file-system one begins an epoch |
| `BarrierQueue.RequestQueue.AddRequest` | linux-2.6.22.6/block/elevator.c:646-680 | The whole new state is the submission step: epoch, colour, promotion to the back, drain |
| `BarrierQueue.RequestQueue.Start` | linux-2.6.22.6/block/ll_rw_blk.c:427-476 | The new state is the start step, whose flushes `BarrierRuns.BarrierSafe` ties to the mode; ready exactly when nothing is in flight |
| `BarrierQueue.RequestQueue.Order` | linux-2.6.22.6/block/ll_rw_blk.c:478-525 | Decides as the ordering step does; when it offers a request there is one |
| `BarrierQueue.RequestQueue.NextRequest` | linux-2.6.22.6/block/elevator.c:696-774 | Returns the head, marked started, exactly when the ordering step allows it |
| `BarrierQueue.RequestQueue.RequestStage` | linux-2.6.22.6/block/ll_rw_blk.c:330-357 | The stage of a request, case by case |
| `BarrierQueue.RequestQueue.DequeueRequest` | linux-2.6.22.6/block/elevator.c:778-792 | The whole new state is the dequeue step |
| `BarrierQueue.RequestQueue.RequeuePosition` | linux-2.6.22.6/block/elevator.c:605-629 | The scan finds the place that the specification names |
| `BarrierQueue.RequestQueue.RequeueRequest` | linux-2.6.22.6/block/elevator.c:517-532 | The whole new state is the requeue step |
| `BarrierQueue.RequestQueue.CompleteStage` | linux-2.6.22.6/block/ll_rw_blk.c:359-383 | The whole new state is the completion of a stage, which remembers the first error |
| `BarrierQueue.RequestQueue.CheckDrain` | linux-2.6.22.6/block/elevator.c:866-884 | The whole new state is the drain test |
| `BarrierQueue.RequestQueue.EndRequest` | linux-2.6.22.6/block/elevator.c:858-884 | The whole new state is the completion step |
| `CamelliaSetup.Context.EncryptBlock` | linux-2.6.22.6/crypto/camellia.c:1709-1733 | For every key, the table-driven cipher with folded whitening keys computes Camellia as section 2.3 of RFC 3713 defines it |
| `CamelliaSetup.Context.DecryptBlock` | linux-2.6.22.6/crypto/camellia.c:1736-1760 | Decryption is that of section 2.3.3 of RFC 3713 and returns the block whose encryption was given |
| `CamelliaSetup.Context.SetKey` | linux-2.6.22.6/crypto/camellia.c:1676-1706 | Keys of 16, 24 and 32 bytes make the table stand for the subkeys of section 2.2 of RFC 3713; any other length is refused and changes nothing |
| `CamelliaSetup.Context.MakeTable` | linux-2.6.22.6/crypto/camellia.c:1690-1704 | For each key length the table stands for the subkeys of that key |
| `CamelliaSetup.Context.constructor` | linux-2.6.22.6/crypto/camellia.c:1676-1706 | A context is made for given S-boxes |
| `CamelliaSetup.Setup128` | linux-2.6.22.6/crypto/camellia.c:479-780 | The stored table stands for the standard subkeys of a 128-bit key |
| `CamelliaSetup.Setup256` | linux-2.6.22.6/crypto/camellia.c:783-1192 | The stored table stands for the standard subkeys of a 256-bit key |
| `CamelliaSetup.Setup192` | linux-2.6.22.6/crypto/camellia.c:1194-1208 | A 192-bit key is a 256-bit key whose last quarter is the complement of the third |
| `CamelliaBytes.BlockIsBytes` | linux-2.6.22.6/crypto/camellia.c:490-493 | The 128-bit quantity that the schedule starts from is the number the sixteen key bytes spell, most significant first |
| `CamelliaSetup.MakeKA128` | linux-2.6.22.6/crypto/camellia.c:536-555 | The intermediate key KA of the standard |
| `CamelliaSetup.MakeKAKB` | linux-2.6.22.6/crypto/camellia.c:855-886 | The intermediate keys KA and KB of the standard |
| `CamelliaSetup.RoundF` | linux-2.6.22.6/crypto/camellia.c:145-163 | The macro is the round function F of the standard |
| `CamelliaSetup.Generate128` | linux-2.6.22.6/crypto/camellia.c:494-583 | In-place rotations by 15, 17, 30 and so on give each subkey at the rotation the standard tabulates |
| `CamelliaSetup.Generate256` | linux-2.6.22.6/crypto/camellia.c:806-929 | The same for 192-bit and 256-bit keys, with KR and KB |
| `CamelliaKeys.AbsorbKw2` | linux-2.6.22.6/crypto/camellia.c:585-612 | The second whitening key is folded into every even round key, changing as it passes each FL layer |
| `CamelliaKeys.AbsorbKw4` | linux-2.6.22.6/crypto/camellia.c:613-642 | The fourth whitening key is folded into every odd round key from the end backwards |
| `CamelliaKeys.FirstKeyFits` | linux-2.6.22.6/crypto/camellia.c:643-704 | The first stored key of each group is the sum of the group mask and its round key |
| `CamelliaKeys.LastKeyFits` | linux-2.6.22.6/crypto/camellia.c:643-704 | The last stored key of each group is the sum of its round key and the outgoing mask |
| `CamelliaKeys.StoreGroup` | linux-2.6.22.6/crypto/camellia.c:643-778 | Six stored keys of a group, sums of neighbours, fit the standard round keys and the masks |
| `CamelliaKeys.StoreGroups` | linux-2.6.22.6/crypto/camellia.c:643-778 | All groups of a table fit |
| `CamelliaKeys.Rewrite` | linux-2.6.22.6/crypto/camellia.c:585-780 | The whole rewriting of the subkeys yields a table that stands for them |
| `CamelliaRounds.TableF` | linux-2.6.22.6/crypto/camellia.c:186-200 | Four combined tables, a rotation and two sums are the S-boxes followed by the permutation P |
| `CamelliaRounds.MixUnmix` | linux-2.6.22.6/crypto/camellia.c:705-778 | Applying the inverse of the last half of P to a stored key is undone by the round |
| `CamelliaRounds.RoundSM` | linux-2.6.22.6/crypto/camellia.c:186-200 | The round macro adds F of the input and the mixed key |
| `CamelliaMasks.FKey` | linux-2.6.22.6/crypto/camellia.c:186-200 | A key enters F only through its sum with the input |
| `CamelliaMasks.ThroughLinear` | linux-2.6.22.6/crypto/camellia.c:585-642 | What an FL layer does to a mask is linear |
| `CamelliaMasks.MaskFL` | linux-2.6.22.6/crypto/camellia.c:170-184 | A mask crosses FL |
| `CamelliaMasks.MaskFLInv` | linux-2.6.22.6/crypto/camellia.c:170-184 | A mask crosses the inverse of FL |
| `CamelliaMasks.FLInverse` | linux-2.6.22.6/crypto/camellia.c:170-184 | FL and its inverse undo each other |
| `CamelliaCipher.FLS` | linux-2.6.22.6/crypto/camellia.c:170-184 | The macro applies FL to one half and its inverse to the other |
| `CamelliaCipher.SixFast` | linux-2.6.22.6/crypto/camellia.c:1228-1247 | Six folded rounds are six standard rounds up to the masks |
| `CamelliaCipher.InnerGroup` | linux-2.6.22.6/crypto/camellia.c:1228-1251 | A group and its FL layer are the standard group and layer up to the masks |
| `CamelliaCipher.LastGroup` | linux-2.6.22.6/crypto/camellia.c:1276-1314 | The last group and the final whitening are those of the standard |
| `CamelliaCipher.Encrypt128` | linux-2.6.22.6/crypto/camellia.c:1214-1314 | With a table that stands for the subkeys, the result is the standard encryption with three groups |
| `CamelliaCipher.Encrypt256` | linux-2.6.22.6/crypto/camellia.c:1422-1546 | The same with four groups |
| `CamelliaCipher.StandsForReversed` | linux-2.6.22.6/crypto/camellia.c:1316-1416 | A table read backwards stands for the reversed subkeys |
| `CamelliaCipher.Decrypt128` | linux-2.6.22.6/crypto/camellia.c:1316-1416 | Reading the table backwards gives the standard decryption |
| `CamelliaCipher.Decrypt256` | linux-2.6.22.6/crypto/camellia.c:1549-1673 | The same with four groups |
| `CamelliaInverse.DecryptEncrypt` | linux-2.6.22.6/crypto/camellia.c:1709-1760 | Decryption undoes encryption, for any number of groups, subkeys and S-boxes |
| `CamelliaInverse.EncryptDecrypt` | linux-2.6.22.6/crypto/camellia.c:1709-1760 | Encryption undoes decryption |
| `CbcScatter.CbcEncrypt` | linux-2.6.22.6/crypto/cbc.c:94-119 | However source and destination are scattered over pages, apart or the same, whichever of the fast, copying and one-block paths each step takes, and whichever allocations are refused: the destination receives exactly the CBC encryption of the whole blocks that are done, nothing else in memory changes, and the chaining value is right. All whole blocks are done, and the result is success exactly when that is everything, unless a scratch buffer is refused at a step that needs one; if none is refused, that never happens |
| `CbcScatter.CbcDecrypt` | linux-2.6.22.6/crypto/cbc.c:183-208 | The same for decryption |
| `CbcScatter.Crypt` | linux-2.6.22.6/crypto/cbc.c:94-119 | The same for the walk loop in either direction |
| `CbcScatter.CryptPass` | linux-2.6.22.6/crypto/cbc.c:94-119 | One step of the walk continues the chain, makes progress, and leaves the walk ready, finished or out of memory |
| `CbcScatter.Begin` | linux-2.6.22.6/crypto/cbc.c:94-106 | The walk stands at the first byte with a stretch set up, or has nothing to offer for the reason it returns |
| `CbcScatter.Drive` | linux-2.6.22.6/crypto/cbc.c:106-119 | The loop computes the chain up to where the walk ends, and ends at less than a block or at a refused buffer |
| `CbcScatter.ChainSplit` | linux-2.6.22.6/crypto/cbc.c:94-119 | The chain over a concatenation is the chain over the parts with the chaining value handed on |
| `CbcSpec.EncSplit` | linux-2.6.22.6/crypto/cbc.c:42-66 | CBC encryption splits at block boundaries |
| `CbcSpec.DecSplit` | linux-2.6.22.6/crypto/cbc.c:121-147 | CBC decryption splits at block boundaries |
| `CbcSpec.EncAt` | linux-2.6.22.6/crypto/cbc.c:42-66 | Each ciphertext block is the cipher of its data block added to the ciphertext block before it, the first to the initial vector |
| `CbcSpec.EncLast` | linux-2.6.22.6/crypto/cbc.c:42-66 | The value handed on is the last ciphertext block |
| `CbcSpec.DecAt` | linux-2.6.22.6/crypto/cbc.c:121-147 | Each data block is the deciphered block added to the ciphertext block before it, the first to the initial vector |
| `CbcSpec.DecLast` | linux-2.6.22.6/crypto/cbc.c:121-147 | The value handed on is the last whole block of the ciphertext |
| `CbcSpec.DecEnc` | linux-2.6.22.6/crypto/cbc.c:121-181 | CBC decryption undoes encryption for any block cipher that is undone, and ends with the same chaining value |
| `CbcSpec.LeftIsMod` | linux-2.6.22.6/crypto/cbc.c:42-66 | What the loops leave over is the remainder by the block size |
| `CbcLoops.EncryptSegment` | linux-2.6.22.6/crypto/cbc.c:42-66 | From one buffer to another: the destination becomes the chain, everything else stays |
| `CbcLoops.EncryptInplace` | linux-2.6.22.6/crypto/cbc.c:68-92 | In place: the buffer becomes the chain of its old contents |
| `CbcLoops.DecryptSegment` | linux-2.6.22.6/crypto/cbc.c:121-147 | From one buffer to another |
| `CbcLoops.DecryptBackwards` | linux-2.6.22.6/crypto/cbc.c:157-176 | The in-place loop runs from the last block to the second and never reads a block it has overwritten |
| `CbcLoops.DecryptInplace` | linux-2.6.22.6/crypto/cbc.c:149-181 | In place: the buffer becomes the decryption of its old contents |
| `Scatter.Contiguous` | linux-2.6.22.6/crypto/scatterwalk.h:36-48 | The bytes up to the clamp lie next to each other in memory and are the next bytes of the list |
| `Scatter.AdvanceAt` | linux-2.6.22.6/crypto/scatterwalk.h:50-54 | Advancing within the clamp moves the position in the list by as much |
| `Scatter.PageDoneAt` | linux-2.6.22.6/crypto/scatterwalk.c:59-81 | Leaving a page, and an entry when it is used up, keeps the position in the list |
| `Scatter.CopyIn` | linux-2.6.22.6/crypto/scatterwalk.c:84-108 | Copies exactly the next bytes of the list and ends behind them |
| `Scatter.CopyOut` | linux-2.6.22.6/crypto/scatterwalk.c:84-108 | Writes exactly the next bytes of the list, in order, and changes no others |
| `BlkcipherWalk.StretchesApart` | linux-2.6.22.6/crypto/blkcipher.c:192-217 | Two current stretches of related lists are the same or do not overlap |
| `BlkcipherWalk.SourceAhead` | linux-2.6.22.6/crypto/blkcipher.c:103-141 | What has been written to the destination never changes source bytes still to be read |
| `Spots.SpotsFitIff` | linux-2.6.22.6/crypto/blkcipher.c:144-176 | For every buffer address, block size, alignment and slack: both blocks of the one-block path lie inside the allocated buffer exactly when the padding in front and what is skipped at a page end are within the slack |
| `Spots.PlainFitsIff` | linux-2.6.22.6/crypto/blkcipher.c:144-176 | Without slack, on an aligned buffer: exactly when both blocks end before the page does |
| `Spots.EndOfPageMisses` | linux-2.6.22.6/crypto/blkcipher.c:62-67 | A buffer at 4064 with two 16-byte blocks that would end with the page: the second block is put behind the buffer |
| `Spots.IvFitsIff` | linux-2.6.22.6/crypto/blkcipher.c:272-293 | The same condition for the two blocks and the copied initial vector |
| `Spots.PageFits` | linux-2.6.22.6/crypto/blkcipher.c:144-176 | A bounce page used as scratch buffer always holds both blocks |
| `Spots.SpotsApart` | linux-2.6.22.6/crypto/blkcipher.c:62-67 | Output block, input block and initial vector never overlap, wherever they are put |
| `Spots.SpotSkips` | linux-2.6.22.6/crypto/blkcipher.c:62-67 | What two and three blocks laid out one after the other skip, by page offset |
| `BlkcipherWalk.RoomyIff` | linux-2.6.22.6/crypto/blkcipher.c:144-293 | The scratch buffer of a request has room, with or without a copied initial vector, exactly when padding and skipped bytes are within what was asked for beyond the blocks |
| `BlkcipherWalk.Walk.First` | linux-2.6.22.6/crypto/blkcipher.c:311-337 | Copies a misaligned initial vector and sets up the first stretch; bytes are claimed with a stretch set up exactly when the initial vector is aligned or a buffer for its copy was granted |
| `BlkcipherWalk.Walk.LoadBlock` | linux-2.6.22.6/crypto/blkcipher.c:163-175 | The next block of the source lies at the input spot and the output spot does not overlap it |
| `BlkcipherWalk.Walk.SpotsInBuffer` | linux-2.6.22.6/crypto/blkcipher.c:163-168 | Both spots are inside the buffer and apart |
| `BlkcipherWalk.Walk.Clamp` | linux-2.6.22.6/crypto/blkcipher.c:236-248 | No further than the end of either page; a bounce page is asked for exactly when either side is misaligned, and without one there is no way to go |
| `BlkcipherWalk.Walk.MoveOn` | linux-2.6.22.6/crypto/blkcipher.c:121-127 | Both walkers stand behind the finished bytes |
| `BlkcipherWalk.Walk.constructor` | linux-2.6.22.6/include/crypto/algapi.h:209-217 | The walk is given both lists and the length, and has set up nothing |
| `BlkcipherWalk.Walk.NextSlow` | linux-2.6.22.6/crypto/blkcipher.c:144-176 | One block, gathered across pages into the scratch buffer at its spot; it ends with ENOMEM exactly when there is no buffer, no bounce page, and a buffer is refused |
| `BlkcipherWalk.Walk.NextCopy` | linux-2.6.22.6/crypto/blkcipher.c:178-190 | A misaligned stretch, copied to the bounce page |
| `BlkcipherWalk.Walk.NextFast` | linux-2.6.22.6/crypto/blkcipher.c:192-217 | A stretch used where it lies |
| `BlkcipherWalk.Walk.SetUp` | linux-2.6.22.6/crypto/blkcipher.c:250-270 | One block through a buffer exactly when less than a block can be reached, and else a copied stretch exactly when misaligned; ENOMEM exactly when the one block finds no buffer |
| `BlkcipherWalk.Walk.Next` | linux-2.6.22.6/crypto/blkcipher.c:219-270 | Less than a block is refused; ENOMEM exactly when one block has to go through a buffer and none is granted; otherwise the next source bytes are offered, on the path and at the length that the pages, the alignment and the granted bounce page call for |
| `BlkcipherWalk.Walk.WriteBack` | linux-2.6.22.6/crypto/blkcipher.c:69-101 | The output reaches the destination and both positions advance by its length |
| `BlkcipherWalk.Walk.Finish` | linux-2.6.22.6/crypto/blkcipher.c:103-141 | The walk ends without an error exactly when nothing is left, with one when less than a block is left or a scratch buffer that is needed is refused, and goes on otherwise |
| `Gf128Tables.Mul64k` | linux-2.6.22.6/crypto/gf128mul.c:349-372 | Sixteen lookups give the product in GF(2^128), in both bit orders |
| `Gf128Tables.Mul4k` | linux-2.6.22.6/crypto/gf128mul.c:435-462 | Lookups in one row combined by multiplication with x^8 give the product in GF(2^128), in both bit orders |
| `Gf128Tables.Init64k` | linux-2.6.22.6/crypto/gf128mul.c:255-336 | Row i of the sixteen holds every byte times x^(8i) times the element |
| `Gf128Tables.Init4k` | linux-2.6.22.6/crypto/gf128mul.c:391-432 | The row holds every byte times the element |
| `Gf128Tables.PowersBbe` | linux-2.6.22.6/crypto/gf128mul.c:413-432 | Doubling from entry 1 up: entry p holds p times the element, for every power of two |
| `Gf128Tables.PowersLle` | linux-2.6.22.6/crypto/gf128mul.c:391-411 | Doubling from entry 128 down, in the little order |
| `Gf128Tables.FillRow` | linux-2.6.22.6/crypto/gf128mul.c:255-294 | From the entries at the powers of two, doubling fills the other entries with their sums |
| `Gf128Tables.NextRow` | linux-2.6.22.6/crypto/gf128mul.c:255-294 | A row times x^8 is the next row |
| `Gf128Tables.PolyOfBytes` | linux-2.6.22.6/crypto/gf128mul.c:349-372 | In the big order the bytes of an element spell the element |
| `Gf128Tables.PolyOfBytesDown` | linux-2.6.22.6/crypto/gf128mul.c:349-372 | In the little order, read from the highest byte, they spell it mirrored |
| `Gf128Tables.MirrorProduct` | linux-2.6.22.6/crypto/gf128mul.c:349-372 | The product in the little order is the mirrored product of the mirrored element |
| `Gf128Remainder.ProductIsRemainder` | linux-2.6.22.6/crypto/gf128mul.c:349-372 | An element is the product that all these multipliers compute exactly when it is the remainder of the unreduced polynomial product modulo x^128 + x^7 + x^2 + x + 1, in both bit orders |
| `Gf128Remainder.ProductReduces` | linux-2.6.22.6/crypto/gf128mul.c:135-143 | Reducing after each multiplication by x leaves a remainder of the unreduced product |
| `Gf128Remainder.RemainderUnique` | linux-2.6.22.6/crypto/gf128mul.c:135-143 | Division by the field polynomial leaves one remainder |
| `Gf128Remainder.XReduces` | linux-2.6.22.6/crypto/gf128mul.c:135-143 | Multiplication by x subtracts the field polynomial as often as a bit passes x^127 |
| `Gf128Field.MulXBbeIsX` | linux-2.6.22.6/crypto/gf128mul.c:135-143 | The code for multiplication by x reduces by x^128 + x^7 + x^2 + x + 1 |
| `Gf128Field.MulX8BbeIsX8` | linux-2.6.22.6/crypto/gf128mul.c:155-163 | Multiplication by x^8 through the byte table is eight multiplications by x |
| `Gf128Field.TableIsClmul` | linux-2.6.22.6/crypto/gf128mul.c:102-117 | Each entry of the byte table is the carry-less product of its index with the field polynomial |
| `Gf128Mirror.MirrorX` | linux-2.6.22.6/crypto/gf128mul.c:125-133 | Multiplication by x in the little order mirrors that in the big order |
| `Gf128Mirror.LleByte` | linux-2.6.22.6/crypto/gf128mul.c:109-116 | Entries of the byte table of the little order are eight steps of multiplication by x |
| `Gf128Mirror.MulXLleIsXL` | linux-2.6.22.6/crypto/gf128mul.c:125-133 | The code for multiplication by x in the little order is that mirror |
| `Gf128Mirror.MulX8LleIsX8` | linux-2.6.22.6/crypto/gf128mul.c:145-153 | Multiplication by x^8 in the little order is eight multiplications by x |
| `Gf2.TimesXor` | linux-2.6.22.6/crypto/gf128mul.c:349-372 | Multiplication distributes over sums of polynomials |
| `Gf2.TimesSplit` | linux-2.6.22.6/crypto/gf128mul.c:435-462 | A product splits at any power of x |
| `Lrw.Crypt` | linux-2.6.22.6/crypto/lrw.c:124-178 | Block number j of the message, however the walk cuts it into pieces, becomes the cipher of itself plus t, plus t again, t being key2 times (iv + j) in GF(2^128), although the code only adds a table entry per block |
| `Lrw.CryptChunk` | linux-2.6.22.6/crypto/lrw.c:155-167 | The same over one piece, with the counter and the mask handed on |
| `Lrw.TweakStep` | linux-2.6.22.6/crypto/lrw.c:98-122 | The mask of the next counter is the mask plus key2 times the run of ones up to the bit that the increment reaches |
| `Lrw.IncrementIsRun` | linux-2.6.22.6/crypto/lrw.c:107-122 | A counter and its successor differ in the trailing ones and the bit above |
| `Lrw.GetIndex128` | linux-2.6.22.6/crypto/lrw.c:107-122 | The word-by-word search counts the trailing ones; the result is a table index exactly when the counter is not all ones |
| `Lrw.IndexInTable` | linux-2.6.22.6/crypto/lrw.c:107-122 | The table has an entry for a counter exactly when the counter is not all ones |
| `Lrw.IncAddsOne` | linux-2.6.22.6/crypto/lrw.c:92-96 | Two 64-bit increments with a carry are one 128-bit increment |
| `Lrw.SetKey` | linux-2.6.22.6/crypto/lrw.c:46-84 | Entry i of the increment table is key2 times the element with the lowest i + 1 bits set, on a little-endian host with longs of four or eight bytes |
| `LrwBits.SetBitIff` | linux-2.6.22.6/crypto/lrw.c:46-49 | For every host, element and clear bit: setting the bit adds its power of two exactly when the host is little-endian |
| `LrwBits.BigEndianMisses` | linux-2.6.22.6/crypto/lrw.c:46-49 | On a 64-bit big-endian host setting bit 0 of zero gives bit 56 |
| `LrwBits.SpelledSetBit` | linux-2.6.22.6/crypto/lrw.c:46-49 | What the number in memory becomes on either host |
| `LrwBits.Flipped` | linux-2.6.22.6/crypto/lrw.c:46-49 | Exclusive or with 0x78 counts bytes from the other end and keeps the bit within the byte |
| `LrwBits.OnesNext` | linux-2.6.22.6/crypto/lrw.c:77-81 | Setting bit i in turn spells the lowest i + 1 bits |
| `Lrw.MulByKey` | linux-2.6.22.6/crypto/lrw.c:146-151 | The first mask is the product with key2 |
| `Lrw.Round` | linux-2.6.22.6/crypto/lrw.c:98-103 | The tweak is added before and after the cipher |
| `Lrw.TweakCancels` | linux-2.6.22.6/crypto/lrw.c:98-103 | Adding the tweak twice is adding nothing |
| `Lrw.RoundOnTweaked` | linux-2.6.22.6/crypto/lrw.c:98-103 | On a block that already holds the tweak, the round is the cipher plus the tweak |
| `Lrw.RoundInverse` | linux-2.6.22.6/crypto/lrw.c:98-103 | What the cipher between two additions of the tweak makes of a block, the inverse cipher between the same two undoes |
| `Lrw.LrwInverse` | linux-2.6.22.6/crypto/lrw.c:180-200 | Decryption undoes encryption of a whole message |
| `RbTree.RbFind` | linux-2.6.22.6/block/elevator.c:373-390 | On any search tree the descent finds the request at a sector if and only if there is one |
| `RbTree.LinkIsInsert` | linux-2.6.22.6/block/elevator.c:339-362 | The link step inserts the request at its place in sector order |
| `RbTree.PlaceSplit` | linux-2.6.22.6/block/elevator.c:339-390 | Which way to descend: place and alias of a sector in a list split at a node |
| `RbTree.SortedFind` | linux-2.6.22.6/block/elevator.c:339-362 | In a sorted list there is no alias exactly when no request starts at the sector |
| `DeadlineBounds.WritesWaitBounded` | linux-2.6.22.6/block/deadline-iosched.c:239-336 | For all values of the tunables and from any state: at most writes_starved * (fifo_batch + 1) + fifo_batch requests are sent while a write waits and no write is sent, whatever arrives or is merged meanwhile |
| `DeadlineBounds.ReadsWaitBounded` | linux-2.6.22.6/block/deadline-iosched.c:239-336 | If writes_starved is not zero, at most 2 * fifo_batch + 1 requests are sent while a read waits and no read is sent |
| `DeadlineBounds.WaitsTight` | linux-2.6.22.6/block/deadline-iosched.c:239-336 | While the 32-bit batch counter cannot wrap around, batches are no longer than max(fifo_batch, 1), which tightens both bounds |
| `DeadlineBounds.WaitsExtends` | linux-2.6.22.6/block/deadline-iosched.c:239-336 | Of the steps of such a run nothing is asked but that the direction waits: the invariant in its definition excludes none |
| `DeadlineBounds.ReadsStarve` | linux-2.6.22.6/block/deadline-iosched.c:272-281 | With writes_starved zero, for every n there is a run that sends n requests while a read waits |
| `DeadlineBounds.ReadsBoundedIff` | linux-2.6.22.6/block/deadline-iosched.c:239-336 | A bound on the waiting of reads exists exactly when writes_starved is not zero |
| `DeadlineBounds.SendRank` | linux-2.6.22.6/block/deadline-iosched.c:239-336 | Each send that passes a direction over lowers a rank made of the rest of the batch and the choices left |
| `DeadlineSafety.NothingLost` | linux-2.6.22.6/block/deadline-iosched.c:58-336 | In every run each bio is counted once, among the sent or in exactly one direction; fifo, tree and next pointer agree |
| `DeadlineSafety.RunExtends` | linux-2.6.22.6/block/deadline-iosched.c:58-336 | A run can go on with any step that is possible: the invariant in the definition of a run excludes none |
| `DeadlineSafety.AddInv` | linux-2.6.22.6/block/deadline-iosched.c:58-104 | Adding keeps the agreement; a request already at that sector is sent first, none is lost |
| `DeadlineSafety.BackInv` | linux-2.6.22.6/block/deadline-iosched.c:147-159 | A back merge keeps the agreement and adds the one bio |
| `DeadlineSafety.FrontInv` | linux-2.6.22.6/block/deadline-iosched.c:147-159 | A front merge, with a request in the way at the new sector, keeps the agreement |
| `DeadlineSafety.FrontHeld` | linux-2.6.22.6/block/deadline-iosched.c:147-159 | A front merge adds the one bio and loses none |
| `DeadlineSafety.JoinInv` | linux-2.6.22.6/block/deadline-iosched.c:161-180 | Merging two requests keeps fifo order by time when the earlier time is taken over |
| `DeadlineSafety.MoveInv` | linux-2.6.22.6/block/deadline-iosched.c:185-216 | Sending a request clears or moves the next pointers so that they name queued requests |
| `DeadlineSafety.DispatchInv` | linux-2.6.22.6/block/deadline-iosched.c:239-336 | A dispatch sends a request exactly when there is one, and loses none |
| `DeadlineSafety.HeadExpiresFirst` | linux-2.6.22.6/block/deadline-iosched.c:218-233 | Looking at the head of the fifo decides whether any request of the direction has expired |
| `DeadlineSafety.ExpiredServed` | linux-2.6.22.6/block/deadline-iosched.c:300-336 | When a new batch starts in a direction with an expired request, one at least as old is sent |
| `DeadlineSweep.OneWayElevator` | linux-2.6.22.6/block/deadline-iosched.c:239-336 | While one direction is alone and nothing expires, any number of dispatches sends its requests in sector order from the next one up and then from the lowest again, whatever the batch limit |
| `DeadlineSweep.MoveGoesUp` | linux-2.6.22.6/block/deadline-iosched.c:194-216 | After a request is sent the batch goes on with the lowest request of that direction above it, with none exactly when there is none, and with nothing of the other direction; the last sector is the end of the one sent |
| `DeadlineSweep.NextIsLowestAbove` | linux-2.6.22.6/block/deadline-iosched.c:194-216 | The successor in the tree is the lowest request above |
| `DeadlineSweep.SelectsFirst` | linux-2.6.22.6/block/deadline-iosched.c:300-336 | In or out of a batch the one sent is the first of the sweep |
| `DeadlineSteps.AddQueues` | linux-2.6.22.6/block/deadline-iosched.c:58-104 | The newcomer expires its direction's time from now and stands last; the one request at its sector, if any, is sent; nothing else changes |
| `DeadlineSteps.BackQueues` | linux-2.6.22.6/block/deadline-iosched.c:147-159 | A request grown at the back starts, stands and expires where it did; nothing else changes |
| `DeadlineSteps.FrontQueues` | linux-2.6.22.6/block/deadline-iosched.c:147-159 | A request grown at the front starts lower and expires when it did; one already there is sent; nothing else changes |
| `DeadlineSteps.JoinQueues` | linux-2.6.22.6/block/deadline-iosched.c:161-180 | Two requests become one with the earlier of their times; nothing else changes |
| `DeadlineQueue.DeadlineData.constructor` | linux-2.6.22.6/block/deadline-iosched.c:359-378 | The start state of every run |
| `DeadlineQueue.DeadlineData.AddRqRb` | linux-2.6.22.6/block/deadline-iosched.c:58-70 | Sends any request in the way, then links |
| `DeadlineQueue.DeadlineData.AddRequest` | linux-2.6.22.6/block/deadline-iosched.c:90-104 | The whole new state is the submission step |
| `DeadlineQueue.DeadlineData.RemoveRequest` | linux-2.6.22.6/block/deadline-iosched.c:106-115 | Leaves fifo and tree, and moves the next pointer on if it pointed here |
| `DeadlineQueue.DeadlineData.MoveRequest` | linux-2.6.22.6/block/deadline-iosched.c:194-216 | The whole new state is the send step |
| `DeadlineQueue.DeadlineData.MergedRequest` | linux-2.6.22.6/block/deadline-iosched.c:147-159 | The whole new state is the back-merge or the front-merge step |
| `DeadlineQueue.DeadlineData.Reposition` | linux-2.6.22.6/block/deadline-iosched.c:147-159 | Out of the tree, any request in the way sent, linked again |
| `DeadlineQueue.DeadlineData.TakeEarlierTime` | linux-2.6.22.6/block/deadline-iosched.c:161-174 | The survivor takes the earlier time and the place in the fifo that goes with it |
| `DeadlineQueue.DeadlineData.MergedRequests` | linux-2.6.22.6/block/deadline-iosched.c:161-180 | The whole new state is the joining step |
| `DeadlineQueue.DeadlineData.FindRequest` | linux-2.6.22.6/block/deadline-iosched.c:300-326 | The expired head, the next request, or the first in the tree |
| `DeadlineQueue.DeadlineData.ChooseDirection` | linux-2.6.22.6/block/deadline-iosched.c:267-298 | The direction served and the starvation count |
| `DeadlineQueue.DeadlineData.DispatchRequests` | linux-2.6.22.6/block/deadline-iosched.c:239-336 | The whole new state is the dispatch step; reports whether a request was sent |
| `CompletionSpec.PiecesDoNotMatter` | linux-2.6.22.6/block/ll_rw_blk.c:3389-3497 | For every way of cutting the completed bytes into calls, the bios that are left are those after the total, and short of the end the whole request, with all its positions, is that of one call |
| `CompletionSpec.CompleteComposes` | linux-2.6.22.6/block/ll_rw_blk.c:3389-3497 | Two partial completions equal one of the sum, with all positions; the request is done exactly when the sum reaches its size |
| `CompletionSpec.EveryBioCredited` | linux-2.6.22.6/block/ll_rw_blk.c:3389-3497 | Over all calls, the bytes each bio is told of and the bytes it has left are those it held; once the request is done it was told of all of them |
| `CompletionSpec.PaidIsOwed` | linux-2.6.22.6/block/ll_rw_blk.c:3389-3497 | In one call, bytes reported plus bytes left are the bytes owed, bio by bio |
| `CompletionSpec.PaidCarriesError` | linux-2.6.22.6/block/ll_rw_blk.c:3389-3497 | Every report is of at least one byte, carries the error of the call, and goes to a bio of the request |
| `CompletionSpec.CutIsSuffix` | linux-2.6.22.6/block/ll_rw_blk.c:3389-3497 | The data left is the suffix of the data after the completed bytes |
| `CompletionSpec.DropIsSuffix` | linux-2.6.22.6/block/ll_rw_blk.c:3419-3480 | The same for the segments of one bio |
| `CompletionSpec.CutLeaves` | linux-2.6.22.6/block/ll_rw_blk.c:3389-3497 | What is left has the right size, and nothing is left exactly when all was completed |
| `CompletionSpec.RecalcTwice` | linux-2.6.22.6/block/ll_rw_blk.c:3360-3387 | Advancing the position twice is advancing it once by the sum |
| `CompletionSpec.CompleteCounted` | linux-2.6.22.6/block/ll_rw_blk.c:3360-3387 | Sector counts of the request keep matching its bios |
| `CompletionSpec.CompletePlaced` | linux-2.6.22.6/block/ll_rw_blk.c:3360-3387 | The start sector of the request keeps matching its bios; the soft position catches up with the hard one unless it was ahead, and the current segment is then the first that remains |
| `CompletionQueue.Request.EndThatRequestFirst` | linux-2.6.22.6/block/ll_rw_blk.c:3389-3497 | The new request and the reports are those of the specification; more remains exactly when fewer bytes than its size were completed |
| `CompletionQueue.Request.WalkBios` | linux-2.6.22.6/block/ll_rw_blk.c:3408-3480 | The loop over bios and segments finishes whole bios and finds the place inside the one that stays |
| `CompletionQueue.Request.TrimFirst` | linux-2.6.22.6/block/ll_rw_blk.c:3482-3497 | The bytes done of the bio that stays are reported and cut off it, the last of them inside a segment |
| `CompletionQueue.Request.RecalcSectors` | linux-2.6.22.6/block/ll_rw_blk.c:3360-3387 | The position advances as specified |
| `CompletionQueue.Request.BioEndio` | linux-2.6.22.6/fs/bio.c:1017-1033 | Reports the bytes, never more than are left |
| `CfqDrain.CfqAgrees` | linux-2.6.22.6/block/cfq-iosched.c:388-1817 | In every run of inserts, merges, repositionings, dispatches, expiries, preemptions and completions: a queue is on the service tree exactly when it is on the round-robin list, which it is whenever it has requests; the busy count is their number; fifo and tree of a queue hold the same requests; the next request is one of them; counts by class match; every bio is in exactly one place |
| `CfqDrain.RunInv` | linux-2.6.22.6/block/cfq-iosched.c:388-1817 | The agreement holds along every run from a state that has it |
| `CfqDrain.RunExtends` | linux-2.6.22.6/block/cfq-iosched.c:388-1817 | A run can go on with any step that is possible: the invariant in the definition of a run excludes none |
| `CfqDrain.NextInv` | linux-2.6.22.6/block/cfq-iosched.c:388-1817 | Each step keeps the agreement |
| `CfqDrain.NextTotal` | linux-2.6.22.6/block/cfq-iosched.c:388-1817 | Each step adds the bios it brings and loses none |
| `CfqDrain.SentTotal` | linux-2.6.22.6/block/cfq-iosched.c:917-928 | Sending conserves bios and takes one request off the queues |
| `CfqDrain.InsertTotal` | linux-2.6.22.6/block/cfq-iosched.c:1763-1775 | Inserting adds exactly the bios of the request, though it may send another |
| `CfqDrain.RepositionTotal` | linux-2.6.22.6/block/cfq-iosched.c:598-604 | A front merge changes the bios by exactly the one that joined |
| `CfqDrain.MergedTotal` | linux-2.6.22.6/block/cfq-iosched.c:693-705 | Joining two requests conserves bios |
| `CfqDrain.GrownInv` | linux-2.6.22.6/block/cfq-iosched.c:683-691 | A back merge keeps the agreement |
| `CfqRuns.ClearInv` | linux-2.6.22.6/block/cfq-iosched.c:573-596 | Sending what is in the way at a sector keeps the agreement and clears the sector |
| `CfqRuns.LinkedInv` | linux-2.6.22.6/block/cfq-iosched.c:573-596 | Linking a request, which may put the queue on the list, keeps the agreement |
| `CfqRuns.InsertInv` | linux-2.6.22.6/block/cfq-iosched.c:1763-1775 | Inserting keeps the agreement |
| `CfqRuns.EnqueuedInv` | linux-2.6.22.6/block/cfq-iosched.c:1724-1761 | The decisions after an insert keep the agreement |
| `CfqRuns.ExpiredInv` | linux-2.6.22.6/block/cfq-iosched.c:757-790 | Expiring a slice keeps the agreement and the requests |
| `CfqRuns.PreemptInv` | linux-2.6.22.6/block/cfq-iosched.c:1704-1718 | Preempting keeps the agreement and the requests |
| `CfqRuns.CompletedInv` | linux-2.6.22.6/block/cfq-iosched.c:1777-1817 | A completion keeps the agreement and the requests |
| `CfqRuns.SetClassInv` | linux-2.6.22.6/block/cfq-iosched.c:1267-1308 | A change of priority class, which moves no queue in the service tree, keeps the agreement |
| `CfqRuns.SetActiveInv` | linux-2.6.22.6/block/cfq-iosched.c:796-836 | A queue made active has requests |
| `CfqSafety.TreeAddLoose` | linux-2.6.22.6/block/cfq-iosched.c:447-510 | After the descent the queue is on the service tree once and the leftmost pointer names the first |
| `CfqSafety.ResortRr` | linux-2.6.22.6/block/cfq-iosched.c:515-522 | Re-sorting keeps the agreement of tree and list |
| `CfqSafety.AddRrKeeps` | linux-2.6.22.6/block/cfq-iosched.c:528-536 | Adding to the list adds to the tree and to the count |
| `CfqSafety.DelRrKeeps` | linux-2.6.22.6/block/cfq-iosched.c:542-553 | Leaving the list leaves the tree and the count |
| `CfqSafety.FindNextOther` | linux-2.6.22.6/block/cfq-iosched.c:408-430 | The next request found is another of the queue, and there is none exactly when it was the only one |
| `CfqSafety.TakenInv` | linux-2.6.22.6/block/cfq-iosched.c:558-571 | A queue that loses a request keeps its lists, counts and next request in agreement |
| `CfqSafety.GivenInv` | linux-2.6.22.6/block/cfq-iosched.c:573-596 | A queue that gains a request does too |
| `CfqSafety.RemoveInv` | linux-2.6.22.6/block/cfq-iosched.c:653-667 | Removing a request keeps the agreement of all queues |
| `CfqSafety.DispatchInsertInv` | linux-2.6.22.6/block/cfq-iosched.c:917-928 | Sending a request keeps the agreement of all queues |
| `CfqMerges.RepositionInv` | linux-2.6.22.6/block/cfq-iosched.c:598-604 | Repositioning after a front merge, with a request in the way, keeps the agreement |
| `CfqMerges.MergedInv` | linux-2.6.22.6/block/cfq-iosched.c:693-705 | Joining two requests keeps the agreement |
| `Cfq.ChooseBest` | linux-2.6.22.6/block/cfq-iosched.c:295-383 | The request chosen is one of the two and the other is not better |
| `Cfq.BeforeTransitive` | linux-2.6.22.6/block/cfq-iosched.c:295-383 | Not being better is transitive, so a chain of choices finds a best request |
| `CfqOrder.RunServed` | linux-2.6.22.6/block/cfq-iosched.c:447-510 | Along every run in which changes of class leave queues where they belong, no queue on the service tree stands behind one it should be served before: real-time first, idle last, by key within a class |
| `CfqOrder.NextServed` | linux-2.6.22.6/block/cfq-iosched.c:447-510 | Each step keeps that order, a change of class under its condition |
| `CfqOrder.ClassServedIff` | linux-2.6.22.6/block/cfq-iosched.c:1823-1843 | A change of class alone, which moves no queue, keeps the order exactly when the queue is not on the tree or, with its new class and old key, belongs where it stands |
| `CfqOrder.BoostBreaksOrder` | linux-2.6.22.6/block/cfq-iosched.c:1823-1843 | An idle queue boosted while on the tree is left behind a queue it should now be served before |
| `CfqOrder.FirstIsBest` | linux-2.6.22.6/block/cfq-iosched.c:447-510 | The first queue of the tree is one that no queue with requests should be served before |
| `CfqOrder.DescendsRight` | linux-2.6.22.6/block/cfq-iosched.c:470-510 | The descent ends behind everything the queue does not come before and in front of the rest |
| `CfqChoice.ChooseCases` | linux-2.6.22.6/block/cfq-iosched.c:295-383 | Of two requests alike in kind: ahead of the head the nearer one; one ahead before one that is far behind; behind the head within the limit by penalised distance; both far behind, the lower one |
| `CfqChoice.ChooseKinds` | linux-2.6.22.6/block/cfq-iosched.c:318-329 | Sync before async and metadata before data, wherever they lie and in whichever order they are compared |
| `CfqChoice.NextIsNeighbour` | linux-2.6.22.6/block/cfq-iosched.c:408-430 | The request to follow is chosen among the neighbours in sector order, the last one having the first behind it |
| `CfqChoice.ArrivalIsNext` | linux-2.6.22.6/block/cfq-iosched.c:573-596 | A newcomer becomes the next request if there was none or it comes before that, and does not if that comes before it |
| `CfqChoice.ArrivalIsLast` | linux-2.6.22.6/block/cfq-iosched.c:1763-1775 | A newcomer stands last in its list |
| `CfqSlices.ExpiryCarriesOver` | linux-2.6.22.6/block/cfq-iosched.c:757-790 | When a slice times out, what was left of it or overrun counts into the next turn: a queue with requests is filed under the end of its slice plus its offset, one without keeps the difference; no queue is active, a timer that waited for it is stopped, and no other queue changes |
| `CfqSlices.AddedUnder` | linux-2.6.22.6/block/cfq-iosched.c:447-510 | The queue is on the tree under its new key and a residual is used up |
| `CfqSlices.PreemptsActive` | linux-2.6.22.6/block/cfq-iosched.c:1704-1718 | The active queue loses its turn and the preempting one is filed under key zero with a new slice |
| `CfqSlices.PreemptedServedNext` | linux-2.6.22.6/block/cfq-iosched.c:1704-1718 | It is served next unless a queue of a better class or one whose key is not positive waits too |
| `CfqSlices.ArrivalTurns` | linux-2.6.22.6/block/cfq-iosched.c:1724-1761 | An awaited request stops the idle timer, one that preempts takes the turn, any other changes no turn |
| `CfqSlices.CompletionTimes` | linux-2.6.22.6/block/cfq-iosched.c:1777-1817 | The slice is timed from the first completion and given up exactly when it is over; otherwise the timer starts exactly when the queue has run dry and waiting is worthwhile |
| `CfqSlices.CompletionElsewhere` | linux-2.6.22.6/block/cfq-iosched.c:1777-1817 | A completion of a queue that is not active changes its count and no turn |
| `CfqQueue.ServiceDescent` | linux-2.6.22.6/block/cfq-iosched.c:470-510 | The loop down the tree finds the place of the key and says whether it is leftmost |
| `CfqQueue.CfqData.constructor` | linux-2.6.22.6/block/cfq-iosched.c:2078-2114 | The start state of every run |
| `CfqQueue.CfqData.ForcedDispatchQueue` | linux-2.6.22.6/block/cfq-iosched.c:1062-1073 | Sends every request of one queue and touches no other |
| `CfqQueue.CfqData.ForcedDispatch` | linux-2.6.22.6/block/cfq-iosched.c:1079-1095 | Ends with every queue empty, nothing busy and no queue active, and returns how many requests were queued |
| `CfqQueue.CfqData.CheckFifo` | linux-2.6.22.6/block/cfq-iosched.c:933-954 | The first of the list exactly when it is the first look in this slice and that one is past its time, and only the note of having looked changes |
| `CfqQueue.CfqData.DispatchSome` | linux-2.6.22.6/block/cfq-iosched.c:1010-1060 | Sends the overdue request first if there is one and then one next request after the other: all of the queue or the allowed number, and at least one |
| `CfqQueue.CfqData.DispatchRound` | linux-2.6.22.6/block/cfq-iosched.c:1010-1060 | The same, and the slice is given up exactly when other queues are busy and the queue is idle class or an async one that has sent its number |
| `CfqQueue.CfqData.SendFrom` | linux-2.6.22.6/block/cfq-iosched.c:1010-1060 | At least one request of a queue that has some is sent, and none lost |
| `CfqQueue.CfqData.SelectQueue` | linux-2.6.22.6/block/cfq-iosched.c:970-1008 | A running queue goes on and an awaited one is waited for, with nothing changed; otherwise the first queue of the service tree becomes active exactly when there is one and it does not have to wait out the grace period. A queue is returned exactly when the active one has requests |
| `CfqQueue.CfqData.DispatchRequests` | linux-2.6.22.6/block/cfq-iosched.c:1097-1135 | The loop ends, returns the number sent, loses nothing, and when forced leaves nothing queued. Otherwise nothing is sent exactly when the queue chosen first is waited for, has its quota at the disk, would mix async with sync requests, or there is none to be had; and one of these holds when the loop ends |
| `DigestContext.HashCtx.constructor` | linux-2.6.22.6/crypto/md5.c:150-159 | A context for a hash function |
| `DigestContext.HashCtx.Init` | linux-2.6.22.6/crypto/md5.c:150-159 | The message is empty |
| `DigestContext.HashCtx.UpdateMd5` | linux-2.6.22.6/crypto/md5.c:161-189 | However the data is cut into calls, the context has absorbed their concatenation |
| `DigestContext.HashCtx.UpdateSha1` | linux-2.6.22.6/crypto/sha1.c:49-80 | The same for the loop of SHA-1, which counts from minus the waiting bytes |
| `DigestContext.ShortFitsIff` | linux-2.6.22.6/crypto/sha1.c:49-80 | The 32-bit sum that decides whether a block is full is right exactly when it has not wrapped around |
| `DigestContext.HashCtx.FinalMd5` | linux-2.6.22.6/crypto/md5.c:191-215 | The result is the digest of the padded message of section 3 of RFC 1321 |
| `DigestContext.HashCtx.FinalSha1` | linux-2.6.22.6/crypto/sha1.c:84-108 | The result is the digest of the message padded as section 4 of RFC 3174 says |
| `DigestContext.HashCtx.Update` | linux-2.6.22.6/crypto/digest.c:34-84 | Either update absorbs the data |
| `DigestContext.HashCtx.Final` | linux-2.6.22.6/crypto/digest.c:94-112 | Either final gives the digest of all that was absorbed |
| `DigestSpec.FoldAppend` | linux-2.6.22.6/crypto/md5.c:161-189 | Hashing a concatenation continues at a block boundary |
| `DigestSpec.PaddedWhole` | linux-2.6.22.6/crypto/md5.c:191-215 | The padding fills whole blocks and adds between 9 and 72 bytes |
| `DigestSpec.AbsorbBlock` | linux-2.6.22.6/crypto/md5.c:161-189 | Completing a block hashes the waiting bytes and the new ones |
| `DigestSpec.AbsorbShort` | linux-2.6.22.6/crypto/md5.c:161-189 | Data that completes no block waits |
| `DigestSpec.BitCount` | linux-2.6.22.6/crypto/md5.c:206-208 | The two words of the bit count are those of the 64-bit length modulo 2^64 |
| `DigestSpec.LastBlock` | linux-2.6.22.6/crypto/md5.c:191-215 | With less than 56 bytes waiting the padding takes one block |
| `DigestSpec.LastTwoBlocks` | linux-2.6.22.6/crypto/md5.c:191-215 | Otherwise it takes two |
| `Hmac.HmacCtx.OneShot` | linux-2.6.22.6/crypto/hmac.c:143-171 | For every key and scattered text whose length and block size add up to less than 2^32, the result is H(K xor opad, H(K xor ipad, text)) of section 2 of RFC 2104; for every text it is the outer hash over what the wrapped 32-bit sum admits to the inner one |
| `Hmac.InnerIff` | linux-2.6.22.6/crypto/hmac.c:143-171 | The inner hash is given the pad and the whole text exactly when that sum does not wrap around; otherwise a prefix of the pad alone |
| `Hmac.Streamed` | linux-2.6.22.6/crypto/hmac.c:86-141 | Init, any number of updates and final give the code of the concatenated text |
| `Hmac.HmacCtx.constructor` | linux-2.6.22.6/crypto/hmac.c:173-186 | A context for a child hash |
| `Hmac.HmacCtx.Shorten` | linux-2.6.22.6/crypto/hmac.c:56-76 | A key longer than a block is hashed, a shorter one padded with zeros |
| `Hmac.HmacCtx.SetKey` | linux-2.6.22.6/crypto/hmac.c:44-84 | Both pads are the key combined with 0x36 and 0x5c |
| `Hmac.HmacCtx.Init` | linux-2.6.22.6/crypto/hmac.c:86-106 | The inner hash has absorbed the inner pad |
| `Hmac.HmacCtx.Update` | linux-2.6.22.6/crypto/hmac.c:108-118 | The inner hash absorbs the gathered text |
| `Hmac.HmacCtx.Outer` | linux-2.6.22.6/crypto/hmac.c:130-141 | The digest of the outer pad and the inner digest |
| `Hmac.HmacCtx.Final` | linux-2.6.22.6/crypto/hmac.c:120-141 | The code of all text since init |
| `Hmac.UpdateEntry` | linux-2.6.22.6/crypto/digest.c:51-76 | An entry that spans pages, at any alignment, is absorbed whole |
| `Hmac.UpdateList` | linux-2.6.22.6/crypto/digest.c:34-84 | A scattered text, with chained lists, is absorbed in order up to its length |
| `Hmac.DigestList` | linux-2.6.22.6/crypto/digest.c:128-137 | The digest of the gathered text |
| `Backlog.ExactlyOnce` | linux-2.6.22.6/crypto/cryptd.c:314-350 | In every run: completions come in the order of acceptance, each accepted request completes at most once, one told it was busy is notified at most once and before it completes, and when queue and worker are idle every accepted request has completed and every busy one was notified |
| `Backlog.EnqueueInv` | linux-2.6.22.6/crypto/algapi.c:532-550 | The backlog pointer stays on the first request beyond the limit |
| `Backlog.AnswerIs` | linux-2.6.22.6/crypto/algapi.c:532-550 | Refused exactly when the queue is full and the caller may not wait, and then nothing changes; in progress exactly below the limit, busy exactly when accepted beyond it |
| `Backlog.DequeueInv` | linux-2.6.22.6/crypto/algapi.c:553-569 | Taking a request moves the backlog pointer on by one |
| `Backlog.SubmitGood` | linux-2.6.22.6/crypto/algapi.c:532-550 | Submitting keeps the accounts of answers and notifications |
| `Backlog.TakeGood` | linux-2.6.22.6/crypto/cryptd.c:314-350 | Taking a request with the backlog keeps the accounts |
| `Backlog.CallGood` | linux-2.6.22.6/crypto/cryptd.c:72-101 | Notifying and completing keep the accounts |
| `Backlog.RunGood` | linux-2.6.22.6/crypto/cryptd.c:314-350 | Every run keeps the accounts |
| `Backlog.CryptoQueue.constructor` | linux-2.6.22.6/crypto/algapi.c:523-529 | An empty queue |
| `Backlog.CryptoQueue.EnqueueRequest` | linux-2.6.22.6/crypto/algapi.c:532-550 | Accepted below the limit, busy beyond it if the caller allows that, refused otherwise |
| `Backlog.CryptoQueue.DequeueRequest` | linux-2.6.22.6/crypto/algapi.c:553-569 | The oldest request, if there is one |
| `Tags.TagsAgree` | linux-2.6.22.6/block/ll_rw_blk.c:896-1153 | In every run of starts, ends and resizes the bitmap, the table of requests and the busy list agree, and no two requests share a tag |
| `Tags.RunExtends` | linux-2.6.22.6/block/ll_rw_blk.c:896-1153 | A run can go on with any step that is possible |
| `Tags.StartInv` | linux-2.6.22.6/block/ll_rw_blk.c:1122-1153 | A tag is given exactly when one below the limit is free, and it is the lowest that was; no other tag changes |
| `Tags.EndInv` | linux-2.6.22.6/block/ll_rw_blk.c:1070-1100 | Ending frees exactly the tag of the request |
| `Tags.CopyFitsIff` | linux-2.6.22.6/block/ll_rw_blk.c:1007-1052 | On growth the old entries fit the new table, whose size is capped at twice the number of requests, exactly when that cap is at least the old size |
| `Tags.ResizeInv` | linux-2.6.22.6/block/ll_rw_blk.c:1007-1052 | Resizing keeps every outstanding tag, also those above a lowered limit; the new limit is the depth asked for, capped at twice the number of requests on growth; it fails exactly when growth finds the map shared or no memory |
| `Tags.QueueTags.constructor` | linux-2.6.22.6/block/ll_rw_blk.c:928-947 | All tags free |
| `Tags.QueueTags.FindFirstZero` | linux-2.6.22.6/block/ll_rw_blk.c:1122-1153 | The lowest free tag, or the limit |
| `Tags.QueueTags.StartTag` | linux-2.6.22.6/block/ll_rw_blk.c:1122-1153 | Fails exactly when no tag is free; the whole new state otherwise |
| `Tags.QueueTags.EndTag` | linux-2.6.22.6/block/ll_rw_blk.c:1070-1100 | The whole new state after the end |
| `Tags.QueueTags.ResizeTags` | linux-2.6.22.6/block/ll_rw_blk.c:1007-1052 | The copy loop leaves the old entries and free new ones |
| `MergeSafety.MergesConserve` | linux-2.6.22.6/block/ll_rw_blk.c:2809-3033 | In every run each submitted bio was refused, waits for a request, or lies in exactly one; each request is the contiguous run of its bios in one direction and within the size limit unless it is one larger bio; the merge hash finds what a search of all requests would |
| `MergeSafety.RunInv` | linux-2.6.22.6/block/ll_rw_blk.c:2809-3033 | The same invariant along every run |
| `MergeSafety.RunExtends` | linux-2.6.22.6/block/ll_rw_blk.c:2809-3033 | A run can go on with any step that is possible |
| `MergeSafety.FindIff` | linux-2.6.22.6/block/elevator.c:313-333 | The hash lookup finds a mergeable request that ends at a sector exactly when there is one |
| `MergeSafety.ScanKeeps` | linux-2.6.22.6/block/elevator.c:313-333 | Dropping requests that cannot merge while looking keeps the hash right |
| `MergeSafety.RehashInv` | linux-2.6.22.6/block/elevator.c:307-311 | Repositioning puts a grown request in the bucket of its new end |
| `MergeSafety.GrownOk` | linux-2.6.22.6/block/ll_rw_blk.c:2946-2985 | A bio joined at either end leaves a contiguous request |
| `MergeSafety.JoinedOk` | linux-2.6.22.6/block/ll_rw_blk.c:2809-2860 | Two adjacent requests join to a contiguous one |
| `MergeSafety.JoinInv` | linux-2.6.22.6/block/ll_rw_blk.c:2809-2860 | Absorbing a request keeps hash and ownership |
| `MergeSafety.AddNewInv` | linux-2.6.22.6/block/ll_rw_blk.c:2695-2704 | A new request for a bio keeps hash and ownership |
| `MergeSafety.NoMoreInv` | linux-2.6.22.6/block/ll_rw_blk.c:1417-1452 | Barring a request from merges keeps the invariant |
| `MergeSafety.BackInv` | linux-2.6.22.6/block/ll_rw_blk.c:2946-2962 | A back merge, with the merge it may set off, keeps the invariant |
| `MergeSafety.FrontInv` | linux-2.6.22.6/block/ll_rw_blk.c:2963-2988 | A front merge keeps the invariant though the hash is left alone |
| `MergeSafety.PlanFits` | linux-2.6.22.6/block/elevator.c:457-487 | The request named for a merge is queued, mergeable and adjacent at the named end |
| `MergePlans.NeverForbidden` | linux-2.6.22.6/block/elevator.c:71-93 | A merge is planned only with a request that is queued, mergeable, of the same direction, not special, allowed by the scheduler, and adjacent at that end |
| `MergePlans.NonePassedOver` | linux-2.6.22.6/block/elevator.c:457-487 | When no merge is planned: a request the bio could join at the back implies another that ends at the same sector and may not take it, and one it could join in front is neither the last merge nor the candidate of the scheduler |
| `MergePlans.PlanIsDecided` | linux-2.6.22.6/block/elevator.c:457-487 | The plan is the last merge if that fits, else the hash hit if that fits, else the candidate of the scheduler if that fits |
| `MergePlans.MergedIff` | linux-2.6.22.6/block/ll_rw_blk.c:2916-2991 | A bio is merged exactly when it is no barrier and a fitting request with room is found; refused exactly when it is a barrier no one supports; and otherwise gets a request of its own |
| `MergePlans.BackThenJoin` | linux-2.6.22.6/block/ll_rw_blk.c:2809-2860 | After a back merge the latter request is absorbed exactly when the two then meet, are alike and within the limit; no other request changes |
| `MergePlans.FrontThenJoin` | linux-2.6.22.6/block/ll_rw_blk.c:2809-2860 | The same in front |
| `MergeSafety.TryInv` | linux-2.6.22.6/block/ll_rw_blk.c:2916-2991 | A bio is taken into one request, refused, or left to wait for a request of its own |
| `MergeSafety.NextInv` | linux-2.6.22.6/block/ll_rw_blk.c:2916-3033 | Between looking for a merge and adding a request, when the lock is dropped, other bios may be submitted and requests sent: every step keeps the invariant and accounts for every bio |
| `MergeSafety.DispatchInv` | linux-2.6.22.6/block/elevator.c:399-453 | A dispatched request leaves the hash |
| `Merge.RqhashFind` | linux-2.6.22.6/block/elevator.c:313-333 | The loop over a bucket, unhashing on the way, finds what the specification does |
| `MergeQueue.RequestQueue.constructor` | linux-2.6.22.6/block/elevator.c:179-209 | The start state of every run |
| `MergeQueue.RequestQueue.Find` | linux-2.6.22.6/block/elevator.c:457-487 | The cached request, the hash, then the candidate of the scheduler |
| `MergeQueue.RequestQueue.AddRequest` | linux-2.6.22.6/block/ll_rw_blk.c:2695-2704 | The whole new state with a request for the bio |
| `MergeQueue.RequestQueue.AttemptMerge` | linux-2.6.22.6/block/ll_rw_blk.c:2809-2860 | Joins exactly when the two are mergeable, adjacent, alike and small enough |
| `MergeQueue.RequestQueue.JoinRequests` | linux-2.6.22.6/block/elevator.c:502-515 | The whole new state after the join |
| `MergeQueue.RequestQueue.MergeBack` | linux-2.6.22.6/block/ll_rw_blk.c:2946-2962 | The whole new state after a back merge |
| `MergeQueue.RequestQueue.MergeFront` | linux-2.6.22.6/block/ll_rw_blk.c:2963-2988 | The whole new state after a front merge |
| `MergeQueue.RequestQueue.MayTake` | linux-2.6.22.6/block/ll_rw_blk.c:1417-1492 | A request that would be too large is barred from merges |
| `MergeQueue.RequestQueue.TryMake` | linux-2.6.22.6/block/ll_rw_blk.c:2916-2991 | The whole new state up to the point where the lock is dropped, the invariant, and the bio accounted for unless it waits |
| `MergeQueue.RequestQueue.FinishMake` | linux-2.6.22.6/block/ll_rw_blk.c:3002-3026 | The whole new state after adding a request for a bio that waited, and the invariant |
| `MergeQueue.RequestQueue.DispatchOut` | linux-2.6.22.6/block/elevator.c:399-453 | The whole new state after a dispatch |
| `DesCipher.Des3Ctx.Encrypt` | linux-2.6.22.6/crypto/des.c:889-918 | Forty-eight rounds between one initial and one final permutation are encryption with the first key, decryption with the second and encryption with the third, which `DesKeys.TripleIsStandard` shows to be those of FIPS 46-3 |
| `DesCipher.Des3Ctx.Decrypt` | linux-2.6.22.6/crypto/des.c:920-949 | Decryption undoes encryption |
| `DesCipher.Des3Ctx.SetKey` | linux-2.6.22.6/crypto/des.c:867-887 | Refused exactly when the first and second or the second and third key are the same; a refused key changes nothing |
| `DesCipher.Des3Ctx.constructor` | linux-2.6.22.6/crypto/des.c:867-887 | A context with room for three schedules |
| `Des.DegenerateTriples` | linux-2.6.22.6/crypto/des.c:854-887 | With two equal neighbouring schedules the triple collapses to a single cipher, the reason for the refusal |
| `Des.Fusion` | linux-2.6.22.6/crypto/des.c:889-918 | Final and initial permutation between the three ciphers cancel |
| `Des.TripleBack` | linux-2.6.22.6/crypto/des.c:920-949 | The triple is undone by the reversed schedules in reverse order |
| `Des.CipherBack` | linux-2.6.22.6/crypto/des.c:808-852 | The reversed schedule undoes the cipher, for all S-boxes and subkeys |
| `Des.RoundsBack` | linux-2.6.22.6/crypto/des.c:596-607 | Rounds with reversed subkeys undo rounds |
| `Des.FinalInitial` | linux-2.6.22.6/crypto/des.c:530-594 | The chain of rotations and masks of the final permutation undoes that of the initial one |
| `Des.InitialFinal` | linux-2.6.22.6/crypto/des.c:530-594 | And the other way round |
| `DesCipher.EKey` | linux-2.6.22.6/crypto/des.c:637-711 | The table holds the schedule of encryption; reports a weak key as the tests of the code do |
| `DesCipher.DKey` | linux-2.6.22.6/crypto/des.c:719-784 | The table holds the schedule of decryption, the reverse of the other |
| `DesCipher.EHalf` | linux-2.6.22.6/crypto/des.c:643-663 | The sixteen stores of one half of the encryption schedule, from the last to the first, with the registers turned in place: six times the first, seven times the others |
| `DesCipher.DHalf` | linux-2.6.22.6/crypto/des.c:724-744 | The sixteen stores of one half of the decryption schedule, written out separately in the source, are the same words in the opposite order |
| `DesCipher.Store` | linux-2.6.22.6/crypto/des.c:648-695 | Every subkey gets its two words |
| `DesCipher.FixAll` | linux-2.6.22.6/crypto/des.c:697-709 | The last loop rearranges each subkey and touches nothing else |
| `DesCipher.Sixteen` | linux-2.6.22.6/crypto/des.c:596-607 | The loop over pairs of rounds is sixteen rounds |
| `DesCipher.DownIsReverse` | linux-2.6.22.6/crypto/des.c:831-852 | Walking down a schedule is walking up its reverse |
| `DesCipher.WeakIff` | linux-2.6.22.6/crypto/des.c:670-682 | Although the first half is tested after the rotations and the second before, both halves are tested alike |
| `DesCipher.WeakSchedule` | linux-2.6.22.6/crypto/des.c:637-711 | A key reported as weak has at most two different subkeys, in the pattern 1, 7, 7, 1 |
| `DesCipher.WeakSelfInverse` | linux-2.6.22.6/crypto/des.c:637-711 | When both halves of a reported key repeat one word, encryption is its own inverse |
| `DesCipher.DesCtx.constructor` | linux-2.6.22.6/crypto/des.c:786-806 | A context with room for one schedule |
| `DesCipher.DesCtx.SetKey` | linux-2.6.22.6/crypto/des.c:786-806 | Refused exactly when the key is reported as weak and the caller asked for that; a refused key changes nothing |
| `DesCipher.DesCtx.Encrypt` | linux-2.6.22.6/crypto/des.c:808-829 | The cipher with the schedule of the key, which `DesKeys.EncryptIsStandard` shows to be that of FIPS 46-3 |
| `DesCipher.DesCtx.Decrypt` | linux-2.6.22.6/crypto/des.c:831-852 | Decryption undoes encryption |
| `DesKeys.EncryptIsStandard` | linux-2.6.22.6/crypto/des.c:808-829 | For every key and block, the cipher with the computed schedule is the enciphering of FIPS 46-3 bit by bit, with its IP, E, P, PC-1, PC-2 and shifts, whenever the combined tables hold what their rows are made of; and deciphering with the reversed schedule |
| `DesKeys.TripleIsStandard` | linux-2.6.22.6/crypto/des.c:889-918 | The same for the three ciphers in a row |
| `DesKeys.ScheduleIsStandard` | linux-2.6.22.6/crypto/des.c:637-711 | Two table lookups for each half, turned and folded registers and the last rearrangement give, bit by bit, the subkey that PC-1, the shifts and PC-2 give |
| `DesKeys.ScheduleBit` | linux-2.6.22.6/crypto/des.c:637-711 | Where each bit of each subkey comes from in the key |
| `DesRound.CipherIsDes` | linux-2.6.22.6/crypto/des.c:596-607 | With subkeys whose bits are those of the standard, the rounds between the two permutations are the sixteen rounds of FIPS 46-3 |
| `DesRound.FBit` | linux-2.6.22.6/crypto/des.c:596-607 | Every bit of the eight combined lookups on the two key halves is that of the cipher function: E, the key, the eight S-boxes each on its own six bits, and P |
| `DesBits.InitialIsIp` | linux-2.6.22.6/crypto/des.c:530-560 | Every bit of the chain of masked exchanges is where the table IP puts it, in halves turned by one |
| `DesBits.FinalIsFp` | linux-2.6.22.6/crypto/des.c:562-594 | And the final chain is the inverse table |
| `AnticipatoryRuns.WaitsAreJustified` | linux-2.6.22.6/block/as-iosched.c:389-1168 | In every run: waiting for a request to finish means one of that process is in flight, waiting for the next means a timer is armed or firing, a changed batch means requests of the old one are in flight, and a new batch is a read batch |
| `AnticipatoryRuns.NoLostWakeup` | linux-2.6.22.6/block/as-iosched.c:389-1286 | In every run: if the driver was last turned away and requests are queued, then a request of the awaited process is in flight, the timer is running, the old batch is in flight, or a run of the queue is scheduled and not yet done |
| `AnticipatoryRuns.AfterAwake` | linux-2.6.22.6/block/as-iosched.c:389-1286 | Each step, the scheduled run of the queue among them, keeps that |
| `AnticipatoryRuns.RunExtends` | linux-2.6.22.6/block/as-iosched.c:389-1286 | A run can go on with any step that is possible |
| `AnticipatoryRuns.NeverStuck` | linux-2.6.22.6/block/as-iosched.c:981-1137 | With requests queued a dispatch sends one, or waits for old requests in flight, or waits in anticipation with an end in sight |
| `AnticipatoryRuns.FinishedSends` | linux-2.6.22.6/block/as-iosched.c:981-1137 | Once anticipation has finished, a dispatch sends or waits only for the old batch |
| `AnticipatoryBatches.ExpiredGivesWay` | linux-2.6.22.6/block/as-iosched.c:981-1137 | With requests of both directions queued, an expired batch gives way to the other direction, a write batch beginning with a fresh count; its first request, the oldest if reads or if it has expired, leaves at once exactly when nothing of the old batch is in flight |
| `AnticipatoryBatches.TurnsIff` | linux-2.6.22.6/block/as-iosched.c:1017-1101 | The batch turns exactly when the other direction has requests and the running one has expired, or has run dry and there is no waiting for more |
| `AnticipatoryBatches.WaitsIff` | linux-2.6.22.6/block/as-iosched.c:1027-1044 | The scheduler starts to wait exactly when a read batch goes on, the next read is of another process or missing, and nothing speaks against it: for the next request of a process that has its answer, for the answer otherwise |
| `AnticipatoryBatches.SentIs` | linux-2.6.22.6/block/as-iosched.c:1103-1137 | A request that leaves is of the direction of the batch: the oldest if it has expired or reads begin, and else the next in line |
| `AnticipatoryBatches.DispatchDoes` | linux-2.6.22.6/block/as-iosched.c:981-1137 | A dispatch rests, waits, goes on or turns as the fields call for, with the request sent and the count of writes left |
| `AnticipatoryBatches.WriteBatchBounded` | linux-2.6.22.6/block/as-iosched.c:904-974 | Whatever arrives, completes or times out: while reads wait and a write batch runs, no more writes are sent than are left of its count |
| `AnticipatoryBatches.ArrivalEndsWait` | linux-2.6.22.6/block/as-iosched.c:1142-1168 | An arrival ends the wait, and has the queue run, exactly when it is of the awaited process or good enough to break it; it joins its list at the end |
| `AnticipatoryBatches.CompletionStarts` | linux-2.6.22.6/block/as-iosched.c:799-848 | A changed batch begins when the last request of the old one is back, a new read batch is timed from its first completion, and the answer of the awaited process turns the wait for it into one for its next request |
| `AnticipatoryRuns.MoveInv` | linux-2.6.22.6/block/as-iosched.c:930-974 | Sending keeps the agreement and ends anticipation |
| `AnticipatoryRuns.SettleInv` | linux-2.6.22.6/block/as-iosched.c:1106-1137 | Starting a batch sends a request of its direction or waits for the old one to drain |
| `AnticipatoryRuns.CompletedInv` | linux-2.6.22.6/block/as-iosched.c:799-848 | A completion keeps the agreement, and the end of the old batch schedules a dispatch |
| `AnticipatoryRuns.StopInv` | linux-2.6.22.6/block/as-iosched.c:440-451 | Stopping anticipation schedules a dispatch |
| `AnticipatoryRuns.AddInv` | linux-2.6.22.6/block/as-iosched.c:1142-1168 | Adding keeps the agreement |
| `AnticipatoryRuns.TimedOutInv` | linux-2.6.22.6/block/as-iosched.c:456-480 | The timer ends anticipation and schedules a dispatch |
| `AnticipatoryRuns.NextInv` | linux-2.6.22.6/block/as-iosched.c:389-1168 | Each step keeps the agreement |
| `AnticipatoryRuns.RunInv` | linux-2.6.22.6/block/as-iosched.c:389-1168 | Every run keeps the agreement |
| `AnticipatoryQueue.AsData.constructor` | linux-2.6.22.6/block/as-iosched.c:1321-1354 | The start state of every run |
| `AnticipatoryQueue.AsData.CompletedRequest` | linux-2.6.22.6/block/as-iosched.c:799-848 | The whole new state is the completion step |
| `AnticipatoryQueue.AsData.CountLanding` | linux-2.6.22.6/block/as-iosched.c:799-824 | The count in flight and the end of the old batch |
| `AnticipatoryQueue.AsData.Settled` | linux-2.6.22.6/block/as-iosched.c:1106-1137 | The end of a dispatch once a request has been picked |
| `AnticipatoryQueue.AsData.DispatchRequest` | linux-2.6.22.6/block/as-iosched.c:981-1137 | The whole new state and the request sent are those of the dispatch step |
| `AnticipatoryQueue.AsData.SwitchBatch` | linux-2.6.22.6/block/as-iosched.c:1054-1104 | The choice of the next batch |
| `AnticipatoryQueue.AsData.NewReads` | linux-2.6.22.6/block/as-iosched.c:1059-1076 | A new read batch |
| `AnticipatoryQueue.AsData.NewWrites` | linux-2.6.22.6/block/as-iosched.c:1082-1101 | A new write batch |
| `AnticipatoryQueue.AsData.ForcedDispatch` | linux-2.6.22.6/block/as-iosched.c:988-1015 | Ends with both directions empty, no batch pending, and the number sent |
| `AesContext.AesCtx.EncryptBlock` | linux-2.6.22.6/crypto/aes.c:322-360 | Lookups in the stored tables compute the cipher of section 5.1 of FIPS 197 with the round keys of the key |
| `AesContext.AesCtx.DecryptBlock` | linux-2.6.22.6/crypto/aes.c:377-416 | The equivalent inverse cipher with transformed keys returns the block whose encryption was given |
| `AesContext.AesCtx.SetKey` | linux-2.6.22.6/crypto/aes.c:251-305 | The words of the key hold its bytes in order, the buffer the round keys of section 5.2 of FIPS 197 and, transformed, those of the inverse cipher; a key whose length in bytes is no multiple of eight is refused and changes nothing |
| `AesContext.WordsKeepBytes` | linux-2.6.22.6/crypto/aes.c:266-289 | Reading a key word by word, least significant byte first, keeps its bytes and their order |
| `AesContext.AesCtx.Expand` | linux-2.6.22.6/crypto/aes.c:275-297 | The expansion loop for the three key lengths |
| `AesContext.AesCtx.ExpandStep` | linux-2.6.22.6/crypto/aes.c:220-249 | One step of it |
| `AesContext.NewContext` | linux-2.6.22.6/crypto/aes.c:440-444 | The tables that gen_tabs stores and the rounds look up make the cipher that of the S-box of section 5.1.1 of FIPS 197 |
| `AesContext.AesCtx.constructor` | linux-2.6.22.6/crypto/aes.c:76-79 | A context for tables as gen_tabs builds them |
| `AesCipher.DecryptEncrypt` | linux-2.6.22.6/crypto/aes.c:322-416 | The inverse cipher undoes the cipher, for any number of rounds, round keys and invertible S-box |
| `AesCipher.UnwindsRounds` | linux-2.6.22.6/crypto/aes.c:362-416 | Inverse rounds with transformed keys unwind rounds |
| `AesCipher.NextWord` | linux-2.6.22.6/crypto/aes.c:220-249 | Each stored word follows the recurrence of the standard, for the three key lengths |
| `AesContext.TableRoundIs` | linux-2.6.22.6/crypto/aes.c:106-128 | With the stored tables, four lookups a column are substitution, shift and mix, and in the last round without the mix |
| `AesContext.TableUnroundIs` | linux-2.6.22.6/crypto/aes.c:112-134 | With the stored tables, four lookups a column are the inverse round, and in the last one without the mix |
| `AesContext.LsBoxIs` | linux-2.6.22.6/crypto/aes.c:118-122 | Four lookups substitute the bytes of a word |
| `AesContext.FourIsMix` | linux-2.6.22.6/crypto/aes.c:106-134 | One lookup in each of four stored tables mixes or unmixes a substituted column, or only substitutes it |
| `AesLayers.ForwardIsMix` | linux-2.6.22.6/crypto/aes.c:135-204 | The four forward tables together mix a substituted column |
| `AesLayers.InverseIsInvMix` | linux-2.6.22.6/crypto/aes.c:135-204 | The four inverse tables together unmix an inversely substituted column |
| `AesLayers.LastIsPlain` | linux-2.6.22.6/crypto/aes.c:135-204 | The tables of the last round only place bytes |
| `AesLayers.ImixIsInvMix` | linux-2.6.22.6/crypto/aes.c:206-216 | The doubling trick of the key transformation is the inverse mix |
| `AesLayers.StarBytes` | linux-2.6.22.6/crypto/aes.c:206-206 | Doubling four packed bytes at once doubles each |
| `AesTables.GenTabs` | linux-2.6.22.6/crypto/aes.c:135-204 | The S-box is that of section 5.1.1 of FIPS 197, the inverse table undoes it, and the sixteen round tables and the round constants hold what the rounds and the key expansion look up |
| `AesTables.PowersAndLogs` | linux-2.6.22.6/crypto/aes.c:145-152 | Power i is 3^i, and every byte but zero has a logarithm below 255 |
| `AesTables.Generates` | linux-2.6.22.6/crypto/aes.c:145-152 | 3 generates every byte but zero in GF(2^8) |
| `AesTables.FullCircle` | linux-2.6.22.6/crypto/aes.c:145-152 | 3^255 is 1, so the last entry written for 1 is corrected after the loop |
| `AesTables.FfMultIsMul` | linux-2.6.22.6/crypto/aes.c:95-103 | Adding logarithms in eight bits and adding the carry back is the product modulo x^8 + x^4 + x^3 + x + 1 |
| `AesTables.MulPow` | linux-2.6.22.6/crypto/aes.c:95-103 | Multiplying powers of 3 adds exponents |
| `AesTables.MulCommutes` | linux-2.6.22.6/crypto/aes.c:95-103 | The product commutes |
| `AesTables.UniqueReciprocal` | linux-2.6.22.6/crypto/aes.c:160-166 | A byte has at most one reciprocal |
| `AesTables.AffineIsRotations` | linux-2.6.22.6/crypto/aes.c:160-166 | Two folded rotations are the five of section 5.1.1 of FIPS 197 |
| `AesTables.AffineInjective` | linux-2.6.22.6/crypto/aes.c:160-166 | The affine map loses nothing |
| `AesTables.SubInjective` | linux-2.6.22.6/crypto/aes.c:160-166 | No two bytes are substituted alike |
| `AesTables.SubstitutionTables` | linux-2.6.22.6/crypto/aes.c:160-166 | Each entry is the affine image of the reciprocal, and no entry of the inverse table is overwritten by another byte |
| `AesTables.RoundTables` | linux-2.6.22.6/crypto/aes.c:168-204 | Each entry is the column of products, with its three rotations |
| `AesTables.RoundConstants` | linux-2.6.22.6/crypto/aes.c:154-158 | The powers of x |
| `AesLayers.InvMixMix` | linux-2.6.22.6/crypto/aes.c:206-216 | The inverse mix undoes the mix |
| `AesLayers.InvMixLinear` | linux-2.6.22.6/crypto/aes.c:206-216 | The inverse mix is linear, so it can be moved onto the keys |
| `AesMix.MixMix` | linux-2.6.22.6/crypto/aes.c:206-216 | Mixing twice is a sparse matrix |
| `AesMix.SqSq` | linux-2.6.22.6/crypto/aes.c:206-216 | That matrix is its own inverse, so mixing four times is nothing |
| `AesMix.InvForm` | linux-2.6.22.6/crypto/aes.c:206-216 | The inverse matrix is the mix of the sparse one |

## Left out

- BarrierRuns.BarrierSafe: legal submissions are those of `BarrierShapes.ShapeSafeIff`, and only file-system requests are given to the scheduler, which elv_insert checks. Only the modes that drain the queue, with or without each flush, and changes between them; the modes that rely on ordered tags, a change to no barrier support, the outcomes of the driver's prepare function and the merging of bios are not modelled.
- BarrierSafety: the position of the sort boundary is an arbitrary value.
- Camellia: the S-boxes are arbitrary functions, so the constants of the tables are not modelled; groups written out one after the other in the source are loops here.
- CbcScatter.CbcEncrypt: the scratch buffer lies as `BlkcipherWalk.RoomyIff` says, and a buffer for copying a misaligned initial vector is granted; `Spots.SpotsFitIff` and `BlkcipherWalk.Walk.First` say what happens otherwise. The same holds for CbcDecrypt and Crypt.
- Blkcipher walk: which allocations are granted is an arbitrary function of the bytes left; mapping of high memory and physical walks are not modelled; the initial vector has the size of a block, as for this mode, and its place in the buffer is modelled but not the writing of its bytes there.
- CbcLoops.EncryptSegment: source and destination stretches are the same or do not overlap, which `BlkcipherWalk.StretchesApart` shows of the walk.
- GF(2^128): the bit-serial multipliers and a failed allocation are not modelled.
- Lrw.SetKey: the host is little-endian, the exact condition of `LrwBits.SetBitIff`; errors of the child cipher and a failed allocation are not modelled.
- Lrw.Crypt: the counter does not wrap within one message, since the table has no entry for 128 ones; the walk is given as the list of its pieces of whole blocks.
- DeadlineBounds.WaitsTight: the tighter bound is stated for (n + 2) * (fifo_batch + 1) < 2^32, n being writes_starved for writes and 1 for reads; the bounds of the two other lemmas need no such condition.
- Deadline: times are unbounded numbers and the tunables do not change within a run; the search for a front-merge candidate is only the tree search of `RbTree.RbFind`.
- Completion: recounting of segments, disk statistics and bios inside a barrier sequence are not modelled; bios are non-empty and, like the completed pieces, whole sectors.
- CFQ: the offset of a slice, the idle window, whether to preempt or to arm the idle timer, the shape of the service tree and the order on the dispatch list are arbitrary values; reference counts and process contexts are not modelled. Operations other than dispatch are functions on the scheduler's state, so aliasing between queue records is not captured.
- DigestContext.HashCtx.UpdateSha1: the waiting bytes and the new ones are fewer than 2^32, the exact condition of `ShortFitsIff`.
- Digest: the compression functions are arbitrary; the wiping of contexts is not modelled.
- Hmac: errors of the child hash are not modelled.
- Backlog: a request submitted again counts as a new one; locks and the search by transform are not modelled.
- Tags.ResizeInv: growth needs the cap of `Tags.CopyFitsIff`.
- Tags: giving back all outstanding tags at once and the retry loop against other users of a shared map are not modelled.
- Merge: limits on segments, the answers of the scheduler and of the driver, and priorities are arbitrary values; disk statistics and plugging are not modelled.
- DES: the S-boxes are arbitrary functions and the combined tables are described by what each bit of their entries is made of, `DesRound.TablesHold` and `DesKeys.BoxesHold`; their constants are not written out. Weak-key results need that rotating seven bits seven times is no rotation.
- Anticipatory: think time, seek distance, expiry and batch sizes are arbitrary values; every request has a process context; sort order and merges are not modelled. That the driver comes back after an empty scheduler is filled is taken from the plugging of the queue.
- AES: tables indexed by a byte are maps from bytes; the packing of table words is that of a column of four bytes. Rounds written out one after the other are loops here.
- Sysfs attributes, module loading, locks, memory allocation policy and the remaining ciphers and drivers of the kernel are not part of this model, nor is the Java virtual machine of the repository.
