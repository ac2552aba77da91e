# Linux 2.6.31 block layer and two crypto modules: a verified model

A Dafny model of the block layer of the Linux 2.6.31 tree under `linux-2.6.31/`,
of its Camellia cipher and of its CBC mode, with proofs of what they promise.
Code that only computes is modelled by functions and lemmas.  Code that changes
queues, requests, contexts or buffers in place is modelled by classes and array
methods, each proved to compute the function that the lemmas are about.
`dafny verify dfyconfig.toml` checks everything.

## What is modelled

**The barrier protocol** (`Barrier*.dfy`).  A write barrier becomes a sequence
drain, preflush, barrier, postflush, done, kept as bits in `q->ordseq`.  The gate
`blk_do_ordered` sees only the head of the dispatch list and tells requests from
before and after a barrier apart by one colour bit.  The model is a step system
(add, dispatch from the scheduler, peek, start, complete, requeue) with a
submission number and a barrier generation as ghosts of the model state.
`BarrierOrderHolds` is the promise of `blk-barrier.c` over all runs in the
draining modes, `StagesFollowEachOther` adds the order of the stages among
themselves, and `ColorExact` is why one bit is enough; `ExactlyOnce` and
`NeverTraps` hold in every mode; `BarrierNeverWedges` says that the gate never
deadlocks.  `BarrierQueue.dfy` is the code in place.

**Request merging, segments and completion** (`Segments`, `Merging`,
`MergeBound`, `MergeRuns`, `MergeScatter`, `MergeLimits`, `MergeCode`,
`Completion`).  The segment count
remembered in a request is shown to be the size of some legal cut of its vectors,
and the mapping loop to be an optimal cut, so the scatterlist never overflows
(`ScatterBoundHolds`).  Bios are conserved by any run of merges
(`MergingConserves`) and completed exactly once by any sequence of partial
completions (`AllEndOnce`, `UpdateComposes`).

**The I/O schedulers** (`RbTree`, `Lanes`, `Deadline*`, `Anticipatory*`, `Cfq*`,
`DispatchSort`, `MergeIndex`). Representation invariants over arbitrary runs, a
bound on write starvation in the deadline scheduler (`WritesAreServed`),
separation of read and write batches in the anticipatory one (`BatchesNeverMix`)
and its forced drain (`ForcedEmptiesIff`), agreement of the service tree, flags
and counters in CFQ (`Agreement`) and its forced drain, the one-way elevator
order of `elv_dispatch_sort` under noop (`NoopDrainSorts`), and agreement of the
merge hash with a scan (`FindAgreesWithScan`).

**Tags** (`Tags.dfy`).  The bitmap, the index and the requests agree through
start, end and resize.

**Camellia** (`Camellia*.dfy`).  The key set-up makes the whitening and round
keys disappear into other subkeys.  `AbsorptionIsSound` proves by an
affine-offset simulation through the rounds and FL layers that this preserves
the cipher of section 2.3 of RFC 3713, for every table and every block;
`Setup128` and `Setup256` connect the register code with the key schedule of
section 2.2; `DecryptUndoes` and `EncryptUndoes` make the two ciphers inverse to
each other on every table.  `CamelliaContext.dfy` carries this to bytes.

**CBC** (`Cbc`, `CbcCode`, `CamelliaCbc`).  The four loops compute the mode of
section 6.2 of NIST SP 800-38A, in place and out of place, however the data is
chunked.

## What turned out false

- *Merging keeps the segment count an upper bound.*  `attempt_merge` does not
  compare discard flags, a discard has the direction of a read, and
  `blk_phys_contig_segment` calls a chain without data contiguous, so a discard
  followed by a read loses a segment.  `DiscardMergeUndercounts` is a run that
  does it, `MergeCountIff` says exactly which merges do; two discards wrap the
  16-bit count (`DiscardsWrap`), but then there is nothing to map.
  `ScatterBoundHolds` is proved for all runs in which no merge of two requests
  puts data beside a discard; on a queue that does not cluster the count is exact
  in all runs (`UnclusteredCountsExact`).
- *Merging two requests reads only vectors that are there.*  A read followed by a
  discard reads the first vector of a bio that has none: exactly under the
  condition of `FaultsIff`, and `ReadThenDiscardFaults` is a run that gets there.
  Nothing has been written by then, so the theorems about runs do not exclude it.
- *Two partial completions move the position as their sum does.*  Each call
  rounds down to sectors: true if and only if the parts of a sector do not add up
  to one (`PositionDrifts`).
- *Two partial completions do what their sum does.*  A bio without vectors makes
  no progress by parts (`DiscardSticks`).  Whole sectors compose with whatever
  comes later if and only if they do not end inside such a bio
  (`ComposesIffClean`); requests with such bios are included.
- *Growing a tag map loses no tag.*  The new depth is clamped to twice the
  requests of the queue before the old map is copied into it: it fits if and only
  if that covers the old depth (`GrowthFits`, `Resize`; `GrowthCanShrink` is a
  map that does not fit).
- *Barrier order needs only that fs requests are not inserted at the front.*  It
  also needs that only fs requests carry the hard barrier flag, which pktcdvd
  sets on packet commands.  `OrderIffDisciplined`: in every draining mode a set
  of submissions is safe if and only if each of them keeps both rules.
- *One colour bit is enough.*  True if and only if the mode does not order by tag
  (`ColorsExactIffNoTag`).
- *Anticipatory batches never mix.*  An insertion or a front merge onto a taken
  position dispatches the request there at once.  The batches stay apart if and
  only if it is of the direction the driver holds (`AliasMixesIff`,
  `FrontAliasIff`); runs take such steps under exactly that condition.  A forced
  dispatch keeps them apart if and only if only reads are involved
  (`ForcedMixesIff`).
- *Forced dispatch leaves the anticipatory scheduler empty*, as the insertion of a
  barrier relies on.  A front merge onto the position of the only other request
  loses `next_rq`, which the drain goes by: then, and only then, a request stays
  behind (`ForcedEmptiesIff`, `FrontMergeDefeatsDrain`), and a barrier inserted at
  the back can overtake it (`LeftBehindBreaksOrder`).
- *While the anticipatory scheduler waits for a request, one is outstanding.*
  A read that could not allocate an io context leaves the context of the process
  before it in place.  `StepKeepsSomebody` says exactly which steps break the
  promise, `NullContextStalls` is a run that then waits for nobody, with the answer
  the code computes (`MustBreakIff` says when it has a choice).  No timer runs in
  that state; short of a forced dispatch (`ForcedEndsStallIff`), only a new
  request or a front merge ends it (`StallEndsIff`, `StallLasts`).

## Model

| member | source | states |
|---|---|---|
| Barrier.CurSeqIsFirstZero | linux-2.6.31/block/blk-barrier.c:55-60 | the current stage is the lowest bit not yet set in the word: all lower stages are done, this one is not |
| Barrier.RequeuePoint | linux-2.6.31/block/elevator.c:681-686 | everything before the place found is of an earlier stage, and what stands there is not |
| BarrierSteps.StepKeepsInv | linux-2.6.31/block/blk-barrier.c:91-279 | every step (add, dispatch, peek, start, complete, requeue), in every ordered mode, keeps the stage bookkeeping: each stage of the running sequence is done, listed, or at the driver, exactly once; every submitted request is accounted for once |
| BarrierSteps.AddKeepsInv | linux-2.6.31/block/elevator.c:610-742 | the stage bookkeeping (each stage done, listed or at the driver exactly once) survives an insertion at the front, the back or into the scheduler |
| BarrierSteps.RequeueKeepsInv | linux-2.6.31/block/elevator.c:662-690 | the stage bookkeeping (each stage done, listed or at the driver exactly once) survives requeueing a request at any moment of a sequence |
| BarrierSteps.CompleteKeepsInv | linux-2.6.31/block/elevator.c:835-865 | the stage bookkeeping (each stage done, listed or at the driver exactly once) survives completing any request at the driver with any error, including the drain test that follows |
| BarrierSteps.DoOrderedKeepsInv | linux-2.6.31/block/blk-barrier.c:235-279 | the stage bookkeeping (each stage done, listed or at the driver exactly once) survives asking the gate about the head, whether it starts a sequence, refuses a barrier, holds or hands over |
| BarrierSteps.FirstBitsInv | linux-2.6.31/block/blk-barrier.c:153-233 | starting a sequence queues exactly the stages whose bits it leaves clear |
| BarrierSteps.DrainKeepsPending | linux-2.6.31/block/elevator.c:848-864 | ending the drain never sets a stage bit that was set, and never ends a sequence that has a stage left |
| BarrierTheorems.InitInv | linux-2.6.31/block/blk-barrier.c:23-48 | an idle queue has the bookkeeping invariant and an empty history, so the results hold from the start |
| BarrierTheorems.NeverTraps | linux-2.6.31/block/blk-barrier.c:98-99 | the BUG_ON on a stage bit set twice is unreachable from every state of every run |
| BarrierTheorems.EndCarriesFirstError | linux-2.6.31/block/blk-barrier.c:91-111 | the completion that ends a sequence finishes the original barrier, once, with the first nonzero error reported since the sequence began, and no stage is outstanding any more |
| BarrierStages.StepKeepsStages | linux-2.6.31/block/blk-barrier.c:91-233 | in every mode every step keeps the bits and the history in agreement: a stage that is asked for and marked has completed, and every barrier that ended had completed all its stages |
| BarrierStages.ExactlyOnce | linux-2.6.31/block/blk-barrier.c:91-233 | for every mode and every run from an idle queue: no step traps on a stage bit set twice, nothing finishes twice, a barrier ends only after every stage its mode asks for has completed, each end carries the first error reported since its sequence began, or the refusal when barriers are not supported, and a barrier that has not ended with its drain over waits for a stage that it asks for and that has not completed |
| BarrierStages.StagesFollowEachOther | linux-2.6.31/block/blk-barrier.c:186-233 | in the draining modes, over every disciplined run, each of preflush, barrier and postflush is issued only after the stages before it that the mode asks for have completed |
| BarrierOrder.ColorExact | linux-2.6.31/block/blk-barrier.c:84-88 | with any number of barriers queued, the one-bit colour test classifies an fs request at the head of the list, or at the driver and so about to be requeued, exactly as comparing unbounded barrier generations would |
| BarrierOrder.GateNeverLate | linux-2.6.31/block/blk-barrier.c:235-279 | the WARN_ON of the gate, a request of a stage already passed, never fires in the draining modes |
| BarrierOrderSteps.StepKeepsOrdered | linux-2.6.31/block/blk-barrier.c:153-279 | every step of a disciplined run keeps the generation order of the dispatch list, of the scheduler and of the requests at the driver |
| BarrierOrderSteps.DrainOverMeansDrained | linux-2.6.31/block/elevator.c:848-864 | the drain test of the completion path is sound: when it passes, no fs request from before the barrier is queued or at the driver |
| BarrierOrderSteps.RequeuePlace | linux-2.6.31/block/elevator.c:676-690 | a submitted request is requeued at the very front; a stage request goes behind every fs request from before its barrier |
| BarrierOrderSteps.DispatchKeepsOrdered | linux-2.6.31/block/elevator.c:429-465 | wherever the sorted dispatch may put a request behind the last one it may not pass, generations stay in order |
| BarrierTheorems.RunKeepsOrder | linux-2.6.31/block/blk-barrier.c:153-279 | the order of all logged events is an invariant of every disciplined run in the draining modes |
| BarrierTheorems.StepKeepsOrder | linux-2.6.31/block/blk-barrier.c:153-279 | every disciplined step keeps the order of the events logged so far and adds no event out of order |
| BarrierTheorems.BarrierOrderHolds | linux-2.6.31/block/blk-barrier.c:153-279 | barrier order, draining modes: in every run of add, fetch, complete and requeue steps a stage of a barrier is handed to the driver, and the barrier ends, only after every fs request submitted before it has completed; an fs request is handed over only after every barrier submitted before it has ended |
| BarrierProgress.StepKeepsLive | linux-2.6.31/block/blk-barrier.c:235-279 | every step keeps what makes the gate move: the due stage is at the driver or ahead of everything it has to precede |
| BarrierProgress.RunStaysLive | linux-2.6.31/block/blk-barrier.c:235-279 | after any disciplined run the due stage is still at the driver or ahead of everything it has to precede |
| BarrierProgress.IdleDriverIsServed | linux-2.6.31/block/blk.h:54-68 | with nothing at the driver a running sequence has a request queued and the gate hands it over |
| BarrierProgress.NeverWedged | linux-2.6.31/block/blk.h:54-68 | with nothing at the driver the gate never answers "wait" |
| BarrierProgress.BarrierNeverWedges | linux-2.6.31/block/blk.h:54-68 | deadlock freedom over every run from an idle queue: whenever the driver is idle and the list is not empty or a sequence is running, a request is listed and the gate does not hold it |
| BarrierLimits.NonFsBarrierBreaksOrder | linux-2.6.31/block/blk-barrier.c:235-257 | in every draining mode, for every kind of submission that is not fs and carries the hard barrier flag (as linux-2.6.31/drivers/block/pktcdvd.c:783 submits at the back), a run of it beside ordinary reads and barriers issues a stage before an older read has finished |
| BarrierLimits.UndisciplinedBreaksOrder | linux-2.6.31/block/blk-barrier.c:187-192 | in every draining mode every undisciplined submission breaks the order, also every fs request inserted at the front, barrier or not |
| BarrierLimits.OrderIffDisciplined | linux-2.6.31/block/blk-barrier.c:187-192 | for every draining mode and every set of submissions that includes ordinary reads and barriers: all runs with these submissions keep barrier order if and only if each submission is disciplined |
| BarrierLimits.LeftBehindBreaksOrder | linux-2.6.31/block/elevator.c:627-630 | in every draining mode, if the forced drain leaves a read in the scheduler, every barrier inserted at the back has a run in which a stage of it is issued, or it ends, before the read |
| BarrierLimits.TagModeMisjudgesColor | linux-2.6.31/block/blk-barrier.c:84-88 | in every tag-ordered mode there is a disciplined run after which the colour bit calls a request from before the barrier a later one |
| BarrierLimits.ColorsExactIffNoTag | linux-2.6.31/block/blk-barrier.c:84-88 | for every mode: the colour test is exact in all states of all disciplined runs if and only if the mode does not order by tag |
| BarrierQueue.RequestQueue.CompleteSequence | linux-2.6.31/block/blk-barrier.c:91-111 | the in-place code computes the model step: it records the first error, sets the bit, and at the last stage ends the original barrier |
| BarrierQueue.RequestQueue.QueueStages | linux-2.6.31/block/blk-barrier.c:186-227 | the stages the mode asks for are stacked at the front of the list in reverse, so that they are met in order |
| BarrierQueue.RequestQueue.ChooseMode | linux-2.6.31/block/blk-barrier.c:162-181 | an empty barrier has neither barrier write nor postflush, and drains if ordering by tag would leave it no command |
| BarrierQueue.RequestQueue.TakeBarrier | linux-2.6.31/block/blk-barrier.c:158-221 | the original is taken off the list and replaced by the stages of its mode |
| BarrierQueue.RequestQueue.StartSequence | linux-2.6.31/block/blk-barrier.c:153-233 | the in-place start of a sequence is the model step |
| BarrierQueue.RequestQueue.Gate | linux-2.6.31/block/blk-barrier.c:235-279 | the in-place gate is the model step and gives the same answer |
| BarrierQueue.RequestQueue.ServeHead | linux-2.6.31/block/blk.h:58-62 | the inner loop is a run of gate questions that ends with an empty list, a request handed over, or a gate that holds |
| BarrierQueue.RequestQueue.DispatchOne | linux-2.6.31/block/blk.h:64-65 | the scheduler, whichever it is, gives one of its requests to any place it may choose, as a dispatch step, or holds them back; an eager one never does while it has any, a thorough one never when forced |
| BarrierQueue.RequestQueue.PeekRequest | linux-2.6.31/block/blk.h:54-68 | whatever the two nested loops do is a run of the model; they return nothing only when the list is empty and the scheduler gave nothing (an eager one had nothing), or when the gate holds |
| BarrierQueue.RequestQueue.StartRequest | linux-2.6.31/block/blk-core.c:1827-1840 | taking the peeked request off the list is the model step |
| BarrierQueue.RequestQueue.FindPlace | linux-2.6.31/block/elevator.c:681-686 | the scan stops in front of the first request of no earlier stage |
| BarrierQueue.RequestQueue.RequeueRequest | linux-2.6.31/block/elevator.c:551-566 | requeueing in place is the model step |
| BarrierQueue.RequestQueue.CompletedOne | linux-2.6.31/block/elevator.c:835-865 | the accounting and the drain test of a completion are the model step |
| BarrierQueue.RequestQueue.EndRequest | linux-2.6.31/block/elevator.c:835-865 | completing a request at the driver through its callback is the model step |
| BarrierQueue.RequestQueue.EndStage | linux-2.6.31/block/blk-barrier.c:113-129 | the three end_io callbacks mark their own stage with the reported error |
| BarrierQueue.RequestQueue.RecordError | linux-2.6.31/block/blk-core.c:161-168 | an error on the barrier proxy is kept if it is the first one |
| BarrierQueue.RequestQueue.DrainElevator | linux-2.6.31/block/elevator.c:568-580 | the drain loop is a run of dispatch steps; it reports a scheduler that is not empty then, which does not happen with a thorough one |
| BarrierQueue.RequestQueue.InsertRequest | linux-2.6.31/block/elevator.c:610-690 | front, back and sorted insertion are those of the model |
| BarrierQueue.RequestQueue.AddRequest | linux-2.6.31/block/elevator.c:707-742 | submitting a request, with the colour toggled by a barrier and the scheduler drained for a back insertion, is a run of the model if and only if the drain left nothing behind, as it does with a thorough scheduler |
| Camellia.RoundSmIsF | linux-2.6.31/crypto/camellia.c:870-885 | the round without a key before the look-ups and with a key inside P is the keyed F-function, for the key that P maps the inner key to |
| Camellia.InversePUndoes | linux-2.6.31/crypto/camellia.c:553-576 | the transformation applied to every round subkey undoes the last half of the P-function |
| Camellia.FLShifts | linux-2.6.31/crypto/camellia.c:854-868 | adding a difference before FL adds the difference FLDiff after it: FL is affine in its input |
| Camellia.FLInvShifts | linux-2.6.31/crypto/camellia.c:854-868 | adding a difference before the inverse FL layer adds FLInvDiff of it after |
| Camellia.FLInvDiffLinear | linux-2.6.31/crypto/camellia.c:385-476 | differences carried back through an FL layer add up |
| Camellia.FLDiffUndoes | linux-2.6.31/crypto/camellia.c:385-476 | a difference carried back through FL and forward again is itself |
| Camellia.FLUndoes | linux-2.6.31/crypto/camellia.c:854-868 | FL and its inverse undo each other for every key |
| Camellia.CoreIsRfc | linux-2.6.31/crypto/camellia.c:359-376 | for any S-boxes, tables of the layout their names announce make the eight look-ups and three XORs compute the S-boxes and the P-function of section 2.4.1 of RFC 3713, byte by byte |
| CamelliaCipher.TwoSim | linux-2.6.31/crypto/camellia.c:870-885 | two rounds on a tuned table carry a known pair of offsets to the next known pair |
| CamelliaCipher.SixSim | linux-2.6.31/crypto/camellia.c:896-915 | six rounds of a tuned group carry the offsets from its entry to its exit |
| CamelliaCipher.LayerSim | linux-2.6.31/crypto/camellia.c:854-868 | an FL layer carries offsets to their differences |
| CamelliaCipher.RoundsSim | linux-2.6.31/crypto/camellia.c:887-940 | the offsets between the fast and the plain cipher follow the key table through all groups and FL layers |
| CamelliaCipher.TunedIsPlain | linux-2.6.31/crypto/camellia.c:887-940 | on every table that meets the tuning equations, for every mixing function and every block, the fast cipher is the plain cipher with explicit whitening and keyed rounds (section 2.3 of RFC 3713) |
| CamelliaCipher.RoundsUndo | linux-2.6.31/crypto/camellia.c:942-995 | running the groups backwards undoes running them forwards |
| CamelliaCipher.DecryptUndoes | linux-2.6.31/crypto/camellia.c:942-995 | for every subkey table whatsoever and every block, decryption with both half swaps undoes encryption, FL and FLINV exchanged |
| CamelliaCipher.EncryptUndoes | linux-2.6.31/crypto/camellia.c:887-995 | encryption undoes decryption, so with DecryptUndoes every subkey table gives a permutation of the blocks |
| CamelliaSetup.AbsorbedRound | linux-2.6.31/crypto/camellia.c:381-476 | each round subkey after absorption is the raw one plus the whitening key carried to its group |
| CamelliaSetup.TailIsTuned | linux-2.6.31/crypto/camellia.c:381-578 | the table built by the set-up tail from any raw table meets the tuning equations |
| CamelliaSetup.AbsorptionIsSound | linux-2.6.31/crypto/camellia.c:381-578 | key absorption preserves meaning: for every raw subkey table, every number of groups and every block, the fast cipher on the absorbed table equals the plain cipher on the raw one |
| CamelliaSetup.AbsorbedDecrypts | linux-2.6.31/crypto/camellia.c:942-995 | decryption on the absorbed table inverts the plain cipher |
| CamelliaSetup.AbsorbedEncrypts | linux-2.6.31/crypto/camellia.c:942-995 | the plain cipher inverts decryption on the absorbed table |
| CamelliaCode.TakeKw2 | linux-2.6.31/crypto/camellia.c:387-430 | the forward half of the rewriting: kw2 has reached every odd round key and the FL keys between |
| CamelliaCode.TakeKw4 | linux-2.6.31/crypto/camellia.c:416-473 | the backward half: kw4 has reached every even round key and returns as it stands at the first group |
| CamelliaCode.Absorb | linux-2.6.31/crypto/camellia.c:385-476 | the in-place rewriting of subL and subR, forwards for kw2 and backwards for kw4, leaves the absorbed table |
| CamelliaCode.Fold | linux-2.6.31/crypto/camellia.c:478-551 | the folding of neighbouring keys into the subkey array is the folded table, entry by entry |
| CamelliaCode.InvertP | linux-2.6.31/crypto/camellia.c:553-577 | the loop applies the inverse P half to the six subkeys of every group and to nothing else |
| CamelliaCode.SetupTail | linux-2.6.31/crypto/camellia.c:381-578 | the whole in-place tail leaves a subkey array tuned to the raw table |
| CamelliaCode.RoundStep | linux-2.6.31/crypto/camellia.c:870-885 | one round macro on the four words is one fast round |
| CamelliaCode.LayerStep | linux-2.6.31/crypto/camellia.c:854-868 | the FL macro on the four words is the FL layer |
| CamelliaCode.SixSteps | linux-2.6.31/crypto/camellia.c:896-915 | six round macros are six fast rounds |
| CamelliaCode.SixStepsBack | linux-2.6.31/crypto/camellia.c:951-970 | six round macros in the opposite order run the group backwards |
| CamelliaCode.EncryptBlock | linux-2.6.31/crypto/camellia.c:887-940 | the unrolled rounds, with the optional fourth group, compute the fast encryption |
| CamelliaCode.DecryptBlock | linux-2.6.31/crypto/camellia.c:942-995 | the unrolled rounds in the opposite order, with FL keys exchanged, compute the fast decryption |
| CamelliaKeys.RotByO32 | linux-2.6.31/crypto/camellia.c:340-357 | the shift macro for amounts above 32 is the 128-bit rotation by 34, 45, 49 and 51 bits |
| CamelliaKeys.RotBy | linux-2.6.31/crypto/camellia.c:340-347 | the plain shift macro is the 128-bit rotation by 15, 17 and 30 bits |
| CamelliaKeys.FastKeyA256IsRfc | linux-2.6.31/crypto/camellia.c:756-775 | the shortcut for KA, in which KL cancels out, is KA of section 2.2 of RFC 3713 |
| CamelliaKeys.FastKeyA128IsRfc | linux-2.6.31/crypto/camellia.c:635-653 | for 128-bit keys the shortcut, in which KL cancels out, is KA of section 2.2 of RFC 3713 with KR zero |
| CamelliaKeys.RotateKl128 | linux-2.6.31/crypto/camellia.c:595-633 | the successive rotations of KL reach 15, 45, 60, 77, 94 and 111 bits |
| CamelliaKeys.RotateKa128 | linux-2.6.31/crypto/camellia.c:655-681 | the successive rotations of KA reach 15, 30, 45, 60, 94 and 111 bits |
| CamelliaKeys.RotateKl256 | linux-2.6.31/crypto/camellia.c:707-731 | for long keys the successive rotations of KL reach 45, 60, 77 and 111 bits |
| CamelliaKeys.RotateKr256 | linux-2.6.31/crypto/camellia.c:733-754 | the successive rotations of KR reach 15, 30, 60 and 94 bits and the last one restores KR |
| CamelliaKeys.RotateKb256 | linux-2.6.31/crypto/camellia.c:811-830 | the successive rotations of KB reach 30, 60 and 111 bits |
| CamelliaKeys.MakeKa128 | linux-2.6.31/crypto/camellia.c:635-653 | KA in the registers is that of section 2.2 of RFC 3713 with KR zero |
| CamelliaKeys.RotateKa256 | linux-2.6.31/crypto/camellia.c:788-809 | for long keys the successive rotations of KA reach 15, 45, 77 (by moving words) and 94 bits |
| CamelliaKeys.MakeKaKb | linux-2.6.31/crypto/camellia.c:756-787 | KA and KB in the registers are those of section 2.2 of RFC 3713 |
| CamelliaKeys.Fill256 | linux-2.6.31/crypto/camellia.c:686-830 | before the tail the array holds the 34 subkeys of section 2.2 of RFC 3713 |
| CamelliaKeys.Setup128 | linux-2.6.31/crypto/camellia.c:580-684 | the 128-bit set-up leaves a table tuned to the 26 subkeys of section 2.2 of RFC 3713 |
| CamelliaKeys.Setup256 | linux-2.6.31/crypto/camellia.c:686-833 | the 256-bit set-up leaves a table tuned to the 34 subkeys of section 2.2 of RFC 3713 |
| CamelliaContext.Context.Setup192 | linux-2.6.31/crypto/camellia.c:835-848 | a 192-bit key is completed by the complement of its last eight bytes, at byte level |
| CamelliaContext.Context.SetKey | linux-2.6.31/crypto/camellia.c:1003-1031 | accepts exactly 16, 24 and 32 bytes, then holds the schedule of that key; otherwise changes nothing |
| CamelliaContext.BlockRoundTrip | linux-2.6.31/crypto/camellia.c:1033-1055 | storing a block as big-endian bytes and loading it gives it back |
| CamelliaContext.BytesRoundTrip | linux-2.6.31/crypto/camellia.c:1033-1055 | loading a block from big-endian bytes and storing it gives the bytes back |
| CamelliaContext.Context.EncryptInto | linux-2.6.31/crypto/camellia.c:1033-1055 | with a key set, the output bytes are the cipher of RFC 3713 on the input bytes, also in place |
| CamelliaContext.Context.DecryptInto | linux-2.6.31/crypto/camellia.c:1057-1079 | decryption yields the one and only block that encryption takes to the input, also in place |
| Cbc.EncryptSplit | linux-2.6.31/crypto/cbc.c:90-112 | encrypting in two chunks with the vector carried over equals encrypting in one |
| Cbc.DecryptSplit | linux-2.6.31/crypto/cbc.c:169-191 | decrypting in two chunks, the last ciphertext block carried over as the vector, equals decrypting in one |
| Cbc.ChunksDoNotMatter | linux-2.6.31/crypto/cbc.c:90-112 | any cut of the data into block multiples, with the vector carried over, encrypts as one pass |
| Cbc.DecryptedChunksAgree | linux-2.6.31/crypto/cbc.c:169-191 | any cut of the ciphertext into block multiples, with the vector carried over, decrypts as one pass |
| Cbc.ChunkedRoundTrip | linux-2.6.31/crypto/cbc.c:90-191 | what was encrypted in one set of chunks decrypts to the message in any other |
| Cbc.DecryptUndoes | linux-2.6.31/crypto/cbc.c:42-191 | for every invertible block cipher, vector and message of whole blocks, decryption undoes encryption |
| CbcCode.CryptoXor | linux-2.6.31/crypto/algapi.c:763-778 | XOR by 32-bit words and then by bytes is the bytewise XOR of the region, and touches nothing else |
| CbcCode.EncryptSegment | linux-2.6.31/crypto/cbc.c:42-64 | the two-buffer loop writes the CBC ciphertext of the whole blocks, leaves the last block as the vector and the remainder alone |
| CbcCode.EncryptInPlace | linux-2.6.31/crypto/cbc.c:66-88 | the in-place loop, whose vector points into the buffer, writes the same bytes and the same vector |
| CbcCode.DecryptSegment | linux-2.6.31/crypto/cbc.c:114-138 | the two-buffer loop writes the CBC plaintext and the last ciphertext block as the vector |
| CbcCode.BackLoop | linux-2.6.31/crypto/cbc.c:150-161 | running backwards, each block still finds the ciphertext of the block before it |
| CbcCode.DecryptInPlace | linux-2.6.31/crypto/cbc.c:140-167 | the backward in-place loop writes the same bytes and the same vector as the two-buffer loop |
| CamelliaCbc.BackwardUndoesForward | linux-2.6.31/crypto/camellia.c:1033-1079 | on bytes, for every key of an accepted length, decryption undoes encryption |
| CamelliaCbc.ForwardUndoesBackward | linux-2.6.31/crypto/camellia.c:1033-1079 | on bytes, for every key of an accepted length, encryption undoes decryption |
| CamelliaCbc.CbcRoundTrip | linux-2.6.31/crypto/cbc.c:42-191 | Camellia with absorbed keys under CBC: every message of whole blocks survives, for every key of an accepted length and every initial vector |
| Segments.GreedyCuts | linux-2.6.31/block/blk-merge.c:12-70 | the grouping the loops compute is a legal cut of the vectors into segments |
| Segments.GreedyBest | linux-2.6.31/block/blk-merge.c:118-170 | no legal cut has fewer segments, and among those with as many none has a shorter last segment |
| Segments.ScatterBound | linux-2.6.31/block/blk-merge.c:118-170 | mapping never needs more entries than any legal cut has segments |
| Segments.MapWithinCount | linux-2.6.31/block/blk-merge.c:12-70 | for every bio chain, blk_rq_map_sg emits at most the count of __blk_recalc_rq_segments, which in addition never joins bounced pages |
| Segments.SolidIsOneRun | linux-2.6.31/block/blk-merge.c:135-150 | the vectors of a segment are one run of physical bytes |
| Segments.EntriesCover | linux-2.6.31/block/blk-merge.c:118-170 | the entries cover exactly the bytes of the vectors, in order |
| Segments.RecalcSegments | linux-2.6.31/block/blk-merge.c:12-70 | the nested loop returns the greedy count and raises the remembered sizes of the first and the last segment |
| Segments.MapSg | linux-2.6.31/block/blk-merge.c:118-170 | with room for the segments of some legal cut, mapping stays within the list, and the entries cover the bytes in order |
| MergeBound.SegOkBounds | linux-2.6.31/block/blk-merge.c:114-117 | a count that is the size of some legal cut bounds the scatterlist |
| MergeBound.RecountOk | linux-2.6.31/block/blk-merge.c:77-85 | recounting a bio makes its own count and sizes sound |
| MergeBound.JoinAdds | linux-2.6.31/block/blk-merge.c:203-223 | counts of two chains add up to a sound count of both |
| MergeBound.BackMergeKeeps | linux-2.6.31/block/blk-merge.c:225-247 | a back merge, accepted or refused, keeps the count the size of some legal cut |
| MergeBound.FrontMergeKeeps | linux-2.6.31/block/blk-merge.c:249-272 | a front merge, accepted or refused, keeps the count the size of some legal cut |
| MergeBound.JoinFuses | linux-2.6.31/block/blk-merge.c:292-298 | the "minus one" case: the last segment of one request and the first of the next are one legal segment |
| MergeBound.FusedOk | linux-2.6.31/block/blk-merge.c:291-298 | in that case the sum less one is a sound count, with the sizes of a single remaining segment widened to the fused one |
| MergeBound.AttemptMergeKeeps | linux-2.6.31/block/blk-merge.c:274-312 | merging two requests with data where they meet keeps both counts meaningful, including the sizes written before the merge is refused |
| MergeBound.DatalessMerge | linux-2.6.31/block/blk-merge.c:98-99 | a request without data in front of one with data: the count is right if and only if the second count had a segment to spare |
| MergeRuns.MergeCountIff | linux-2.6.31/block/blk-merge.c:274-312 | of all accepted merges of two requests with right counts, the result bounds its scatterlist if and only if it is not one of a dataless request in front of data whose sizes would fit one segment and whose count had none to spare |
| MergeLimits.DiscardMergeUndercounts | linux-2.6.31/block/blk-merge.c:333-397 | on every clustering queue with room, a run of sound bios (two discards and the read behind them) leaves a request that claims no segment and needs one |
| MergeBound.FaultsIff | linux-2.6.31/block/blk-merge.c:88-112 | attempt_merge reads the first vector of a bio without vectors if and only if the requests may be merged, their sizes would fit one segment, and data meets a bio without vectors |
| MergeLimits.ReadThenDiscardFaults | linux-2.6.31/block/blk-merge.c:88-112 | on every clustering queue with room, a run of sound bios (a read that grows up to a discard) reaches that case |
| MergeBound.DiscardsWrap | linux-2.6.31/block/blk-merge.c:291-310 | two discards merged count 65535 segments |
| MergeRuns.GrownOk | linux-2.6.31/block/blk-core.c:1183-1229 | adding a bio extends the gapless run by it; refusing it moves nothing |
| MergeRuns.AttemptOk | linux-2.6.31/block/blk-merge.c:333-397 | merging two requests makes one gapless run of both; refusing it moves nothing (nor does an attempt that reads a missing vector, which has written nothing) |
| MergeRuns.AbsorbKeeps | linux-2.6.31/block/blk-merge.c:333-397 | in the whole list of requests, an attempted merge keeps the bios held and every request sound |
| MergeRuns.StepKeeps | linux-2.6.31/block/blk-core.c:1183-1229 | every submission, merge or refusal keeps every bio in exactly one request |
| MergeRuns.MergingConserves | linux-2.6.31/block/blk-core.c:1156-1260 | merging conserves I/O: after any run the requests hold exactly the submitted bios, each request is one gapless ascending run of sectors from its position and as long as it says, and a request of several bios is within max_sectors |
| MergeRuns.GrownSeg | linux-2.6.31/block/blk-merge.c:225-272 | adding a sound bio to a request keeps its count sound and the limits respected |
| MergeRuns.RefusedUnchanged | linux-2.6.31/block/blk-merge.c:274-312 | with a bio without data on either side, a refused merge writes nothing |
| MergeScatter.AttemptBound | linux-2.6.31/block/blk-merge.c:274-312 | an attempt to merge two requests, each with a right count or all discards, leaves both so, provided that data meets data and discard meets discard if it goes through |
| MergeScatter.StepKeepsBound | linux-2.6.31/block/blk-merge.c:203-312 | every step in which like meets like keeps every request with a right count or all discards, whatever neighbours are offered and refused |
| MergeScatter.ScatterBoundHolds | linux-2.6.31/block/blk-merge.c:203-312 | over every run of sound bios, discards included, in which no merge of two requests puts data beside a discard: the scatterlist of every request has at most as many entries as it counts segments, and merged requests with data are within the segment limits |
| MergeScatter.UnclusteredCountsExact | linux-2.6.31/block/blk-merge.c:12-70 | on a queue that does not cluster, the count of every request is exactly the size of its scatterlist and within the limits after every run of bios with right counts, whatever is merged with what |
| MergeCode.Request.RecountBio | linux-2.6.31/block/blk-merge.c:77-85 | the in-place recount of a bio is that of the model, which RecountOk is about |
| MergeCode.Request.NewSegment | linux-2.6.31/block/blk-merge.c:203-223 | the limit test adds the segments of the bio or refuses and marks the request unmergeable |
| MergeCode.Request.BackMerge | linux-2.6.31/block/blk-merge.c:225-247 | the in-place back merge is that of the model, which BackMergeKeeps and GrownOk are about |
| MergeCode.Request.FrontMerge | linux-2.6.31/block/blk-merge.c:249-272 | the in-place front merge is that of the model, which FrontMergeKeeps and GrownOk are about |
| MergeCode.Request.MergeRequests | linux-2.6.31/block/blk-merge.c:274-312 | the in-place merge of two requests is that of the model, with the sizes of both updated; when a missing vector is read nothing has been written |
| MergeCode.Request.Attempt | linux-2.6.31/block/blk-merge.c:333-397 | the whole in-place attempt is that of the model; it faults exactly under the condition of FaultsIff, and the absorbed request is left without bios |
| MergeCode.Request.Map | linux-2.6.31/block/blk-merge.c:118-170 | a request whose count is meaningful is mapped into that many entries, covering its bytes in order |
| Completion.DropAddresses | linux-2.6.31/block/blk-core.c:1934-1962 | the vectors left after n bytes hold exactly the addresses after the first n |
| Completion.DoneDone | linux-2.6.31/block/blk-core.c:1922-1975 | completing m and then n bytes leaves the bios and ends the bios that completing m + n bytes does, when m does not end inside a bio without vectors and the parts of a sector in m and n do not add up to one |
| Completion.DoneSane | linux-2.6.31/block/blk-core.c:1922-1975 | what is left and what was taken add up to the bytes there were; n bytes are taken, or all if there are fewer, if and only if n does not end inside a bio without vectors |
| Completion.EndsOnce | linux-2.6.31/block/blk-core.c:132-169 | each bio is either ended or left, once, and in order |
| Completion.UpdatedConsistent | linux-2.6.31/block/blk-core.c:1891-2015 | the length keeps agreeing with the bios, the request is complete if and only if n covers its length, and the length falls by n if and only if n does not end inside a bio without vectors |
| Completion.UpdateComposes | linux-2.6.31/block/blk-core.c:1891-2015 | partial completion composes under the conditions of DoneDone: same bios, vectors, length and ended bios; and the same position while bytes are left, if the first part is whole sectors or the sum does not end inside a bio without vectors either |
| Completion.ComposesIffClean | linux-2.6.31/block/blk-core.c:1934-1942 | whole sectors compose with every later completion if and only if they do not end inside a bio without vectors |
| Completion.PositionDrifts | linux-2.6.31/block/blk-core.c:1994-2000 | where neither m nor m + n ends inside a bio without vectors and bytes are left, the positions agree if and only if the parts of a sector in m and n do not add up to one |
| Completion.StaysPositioned | linux-2.6.31/block/blk-core.c:1994-2000 | whole sectors completed, discards among the bios or not, leave bios that still follow each other from the position of the request |
| Completion.CallsAddUp | linux-2.6.31/block/blk-core.c:1891-2015 | any number of calls in whole sectors, no call but the last ending inside a bio without vectors, have the effect of one call with their sum |
| Completion.AllEndOnce | linux-2.6.31/block/blk-core.c:132-169 | every bio ends exactly once, in order, when the sum of such calls reaches the length |
| Completion.DataSumsClean | linux-2.6.31/block/blk-core.c:1934-1942 | with data in every bio no call ends inside a bio without vectors, so the two results above hold for every slicing into whole sectors |
| Completion.AllDone | linux-2.6.31/block/blk-core.c:1884-1885 | n bytes complete the request if and only if n covers blk_rq_bytes |
| Completion.DiscardSticks | linux-2.6.31/block/blk-core.c:1934-1942 | a bio without vectors cannot be completed in part: m and then n bytes end it if and only if n alone does |
| Completion.PartFailureSticks | linux-2.6.31/block/blk-core.c:137-141 | a bio of which a part failed does not end without an error |
| Completion.Request.EndIo | linux-2.6.31/block/blk-core.c:132-160 | the bio is advanced and, when nothing is left, ended with the right error |
| Completion.Request.Scan | linux-2.6.31/block/blk-core.c:1922-1975 | the loop drops finished bios and stops at the first unfinished vector |
| Completion.Request.Turn | linux-2.6.31/block/blk-core.c:1922-1975 | one turn of the loop completes a bio, steps over a vector, or stops |
| Completion.Request.Trim | linux-2.6.31/block/blk-core.c:1988-1993 | a bio completed in part is advanced to its unfinished vector, which is shortened |
| Completion.Request.Update | linux-2.6.31/block/blk-core.c:1891-2015 | the call has the specified effect; the "request botched" branch is unreachable, the missing-vector branch is taken if and only if the bytes end inside a bio without vectors, and completing all bytes returns false |
| DeadlineProofs.AddOk | linux-2.6.31/block/deadline-iosched.c:100-113 | adding a request, moving one at the same position out of the way, keeps the representation |
| DeadlineProofs.FrontOk | linux-2.6.31/block/deadline-iosched.c:156-168 | repositioning a request after a front merge keeps the representation |
| DeadlineProofs.MergeOk | linux-2.6.31/block/deadline-iosched.c:170-189 | merging two requests, the earlier expiry and its place inherited, keeps the representation |
| DeadlineProofs.FifoMergedOk | linux-2.6.31/block/deadline-iosched.c:170-189 | the FIFO stays in order of expiry and loses exactly the merged request |
| DeadlineProofs.ChosenIsThere | linux-2.6.31/block/deadline-iosched.c:245-320 | a dispatch call chooses a request of its tree and FIFO, nothing only when both FIFOs are empty, and neither BUG_ON fires |
| DeadlineProofs.DispatchOk | linux-2.6.31/block/deadline-iosched.c:206-222 | dispatching keeps the representation |
| DeadlineProofs.StepOk | linux-2.6.31/block/deadline-iosched.c:76-222 | every step keeps the representation |
| DeadlineProofs.RunOk | linux-2.6.31/block/deadline-iosched.c:76-222 | after any run of add, front merge, request merge, dispatch and time: tree and FIFO of a direction hold the same requests, positions are unique, the FIFO is sorted by expiry, at most one next_rq is non-null and it is in its tree, and the count is right |
| DeadlineProofs.ReadLowers | linux-2.6.31/block/deadline-iosched.c:245-327 | the measure (writes_starved - starved) * fifo_batch + (fifo_batch - batching) falls with every read dispatched while a write waits |
| DeadlineProofs.StarvingIsShort | linux-2.6.31/block/deadline-iosched.c:245-327 | from any state the measure bounds the dispatch calls that go on taking reads while a write waits |
| DeadlineProofs.WritesAreServed | linux-2.6.31/block/deadline-iosched.c:245-327 | bounded starvation: after any run, at most (writes_starved + 1) * fifo_batch dispatch calls in a row take a read while a write waits, whatever is added and merged in between |
| DeadlineProofs.DispatchMoves | linux-2.6.31/block/deadline-iosched.c:194-222 | one dispatch moves one request to the end of the dispatch list and loses none |
| DeadlineCode.DeadlineData.RbAdd | linux-2.6.31/block/elevator.c:372-393 | inserts at the sorted place or reports the request already there |
| DeadlineCode.DeadlineData.DelRqRb | linux-2.6.31/block/deadline-iosched.c:86-95 | deletion from the tree moves next_rq on if it pointed there |
| DeadlineCode.DeadlineData.Remove | linux-2.6.31/block/deadline-iosched.c:118-124 | removal takes the request off tree and FIFO |
| DeadlineCode.DeadlineData.AddRqRb | linux-2.6.31/block/deadline-iosched.c:76-84 | the alias loop ends after at most one move, with the model result |
| DeadlineCode.DeadlineData.Move | linux-2.6.31/block/deadline-iosched.c:206-222 | the in-place move is that of the model |
| DeadlineCode.DeadlineData.Add | linux-2.6.31/block/deadline-iosched.c:100-113 | the in-place insertion handler is the model step and keeps the representation |
| DeadlineCode.DeadlineData.Front | linux-2.6.31/block/deadline-iosched.c:156-168 | the in-place front-merge handler is the model step and keeps the representation |
| DeadlineCode.DeadlineData.MergeRequests | linux-2.6.31/block/deadline-iosched.c:170-189 | the in-place request-merge handler, list_move included, is the model step and keeps the representation |
| DeadlineCode.DeadlineData.DispatchRequests | linux-2.6.31/block/deadline-iosched.c:245-327 | the control flow with its jumps makes the choice of the model, returns whether it moved a request, and keeps the representation |
| DeadlineCode.DeadlineData.Drain | linux-2.6.31/block/elevator.c:568-580 | draining ends with nr_sorted 0 and both trees and FIFOs empty, every request on the dispatch list |
| Lanes.SeekChoiceIsBest | linux-2.6.31/block/as-iosched.c:293-361 | the choice between two requests is the one that wraps least and costs least, whichever is named first |
| Lanes.NoWorseTransitive | linux-2.6.31/block/as-iosched.c:293-361 | that preference is transitive |
| Lanes.FindNextOk | linux-2.6.31/block/as-iosched.c:368-391 | the next request is another one of the tree, and null exactly when the request is alone |
| Lanes.FindNextIsBest | linux-2.6.31/block/as-iosched.c:368-391 | when no request starts inside the one just dispatched, comparing the two neighbours is enough: the result is no worse than any other request of the tree |
| Lanes.RemoveQueuedOk | linux-2.6.31/block/as-iosched.c:898-922 | removing a request leaves tree and FIFO equal and next_rq right |
| Lanes.AddQueuedOk | linux-2.6.31/block/as-iosched.c:1186-1212 | adding a request leaves tree and FIFO equal and next_rq right |
| Lanes.MergeQueuedOk | linux-2.6.31/block/as-iosched.c:1282-1303 | merging two requests, the earlier expiry inherited or not, leaves tree and FIFO equal and next_rq right |
| Lanes.LaneOffers | linux-2.6.31/block/as-iosched.c:1116-1147 | a direction with anything in its FIFO has a next request, and that one is in tree and FIFO |
| AnticipatoryProofs.DecideOk | linux-2.6.31/block/as-iosched.c:1024-1151 | the BUG at the end of the selection is unreachable, and what is selected is queued in the direction of the batch |
| AnticipatoryProofs.SelectedBatch | linux-2.6.31/block/as-iosched.c:1102-1151 | a selected batch is the running one, or a new one marked as waiting for the old one; new_batch is set only for reads that wait for nothing |
| AnticipatoryProofs.DispatchKeeps | linux-2.6.31/block/as-iosched.c:1024-1181 | the invariant (batches unmixed, counters right, lanes sound, anticipation state legal) survives a dispatch call, whatever the clock and the heuristics say |
| AnticipatoryProofs.CompleteKeeps | linux-2.6.31/block/as-iosched.c:840-890 | the invariant (batches unmixed, counters right, lanes sound, anticipation state legal) survives a completion |
| AnticipatoryProofs.AddKeeps | linux-2.6.31/block/as-iosched.c:1186-1212 | the invariant (batches unmixed, counters right, lanes sound, anticipation state legal) survives adding a request, also one that moves another out of its position, if that is of the direction the driver holds |
| AnticipatoryProofs.AliasMixesIff | linux-2.6.31/block/as-iosched.c:263-271 | an insertion that moves another request out of its position keeps the batches unmixed if and only if it is of the direction the driver holds |
| AnticipatoryProofs.FrontMergedKeeps | linux-2.6.31/block/as-iosched.c:1263-1280 | the invariant survives a front merge that moves a request to a free position, or to a taken one under the condition of FrontAliasIff |
| AnticipatoryProofs.FrontAliasIff | linux-2.6.31/block/as-iosched.c:1263-1280 | a front merge onto the position of another request keeps the batches apart, and with them the whole invariant, if and only if it is of the direction the driver holds |
| AnticipatoryProofs.AliasedLaneOk | linux-2.6.31/block/as-iosched.c:1263-1280 | after such a merge the lane has lost the request that was there and is sound, and next_rq is null although a request is queued if and only if there were just those two, because next_rq is not looked at again |
| AnticipatoryProofs.MergedKeeps | linux-2.6.31/block/as-iosched.c:1282-1303 | the invariant (batches unmixed, counters right, lanes sound, anticipation state legal) survives merging two requests |
| AnticipatoryProofs.StepKeeps | linux-2.6.31/block/as-iosched.c:840-1303 | the invariant (batches unmixed, counters right, lanes sound, anticipation state legal) survives every step |
| AnticipatoryProofs.BatchesNeverMix | linux-2.6.31/block/as-iosched.c:1102-1178 | after any run all outstanding requests have the direction of the batch, or the opposite one while changed_batch is set, and a request is dispatched only among its own kind |
| AnticipatoryProofs.NoTraps | linux-2.6.31/block/as-iosched.c:419-447 | the BUG_ONs of the anticipation functions and the WARN_ONs on new_batch are unreachable, and a timeout finds an io context |
| AnticipatoryWaits.StepKeepsSomebody | linux-2.6.31/block/as-iosched.c:985-1000 | exactly which steps break the promise that the process last served has a request outstanding until one finishes: those that dispatch a read without an io context while nothing of that process is outstanding |
| AnticipatoryWaits.WaitsForSomebody | linux-2.6.31/block/as-iosched.c:438-447 | after every run without such a step, while the scheduler waits for a request to finish, a request of that process is outstanding |
| AnticipatoryWaits.NullContextStalls | linux-2.6.31/block/as-iosched.c:985-1000 | a run from the start after which the scheduler waits for a request to finish while nothing at all is outstanding and a read is queued; as_can_break_anticipation is asked in its last step only, and answers as the code does for processes without statistics |
| AnticipatoryWaits.StallEndsIff | linux-2.6.31/block/as-iosched.c:437-447 | exactly which steps end such a wait: a new request that breaks the anticipation, or a new or merged one that moves another out of its position; no timer runs and every dispatch call returns at once |
| AnticipatoryWaits.StallLasts | linux-2.6.31/block/as-iosched.c:437-447 | no run without a new request or front merge ends such a wait |
| AnticipatoryWaits.ForcedEndsStallIff | linux-2.6.31/block/as-iosched.c:1031-1058 | a forced dispatch, which is not a step of the runs, ends such a wait if and only if one of the next_rq is set |
| AnticipatoryAnswers.MustBreakIff | linux-2.6.31/block/as-iosched.c:587-739 | as_can_break_anticipation says yes whatever the clock and the statistics are if and only if the request is of the process waited for, or that process has another one queued, or it is a read within 4096 sectors before and 8192 behind the last sector |
| AnticipatoryProofs.FinishedFrees | linux-2.6.31/block/as-iosched.c:453-464 | once anticipation is over and nothing is outstanding, the next dispatch call dispatches a queued request, whatever the clock and the heuristics say |
| AnticipatoryProofs.TimeoutFrees | linux-2.6.31/block/as-iosched.c:469-496 | the timer runs only while waiting for the next request of a process; with nothing outstanding, the first dispatch call after it dispatches a queued request |
| AnticipatoryProofs.WriteBatchEnds | linux-2.6.31/block/as-iosched.c:957-968 | once a write batch has used up its count and both directions are queued, only a read can be dispatched |
| AnticipatoryDrain.DrainEmptiesIff | linux-2.6.31/block/as-iosched.c:1045-1055 | draining one direction empties it if and only if its next_rq is set or nothing is queued, moves nothing else, and what leaves the tree is outstanding |
| AnticipatoryDrain.ForcedEmptiesIff | linux-2.6.31/block/as-iosched.c:1031-1058 | forced dispatch leaves a direction empty if and only if its next_rq is set or nothing is queued, and loses no request |
| AnticipatoryDrain.FrontMergeDefeatsDrain | linux-2.6.31/block/as-iosched.c:1263-1280 | after a front merge onto the position of another request, forced dispatch empties the direction if and only if there was a third one; otherwise the merged request stays behind |
| AnticipatoryDrain.ForcedMixesIff | linux-2.6.31/block/as-iosched.c:1041-1043 | forced dispatch keeps the batches apart if and only if only reads are at the driver and no write is dispatched |
| AnticipatoryCode.AsData.Move | linux-2.6.31/block/as-iosched.c:973-1017 | the in-place move is that of the model |
| AnticipatoryCode.AsData.AddRequest | linux-2.6.31/block/as-iosched.c:1186-1212 | the in-place insertion handler, the loop over requests at the position included, is the model step and keeps the invariant |
| AnticipatoryCode.AsData.AnticStop | linux-2.6.31/block/as-iosched.c:453-464 | anticipation is over and the invariant kept; with requests queued and nothing outstanding, the next dispatch call dispatches one, whatever the clock and the heuristics say |
| AnticipatoryCode.AsData.Clear | linux-2.6.31/block/as-iosched.c:263-271 | the loop ends after at most one turn with the position free |
| AnticipatoryCode.AsData.Front | linux-2.6.31/block/as-iosched.c:1263-1280 | the in-place front-merge handler is the model step and keeps the invariant |
| AnticipatoryCode.AsData.DrainSide | linux-2.6.31/block/as-iosched.c:1045-1055 | the in-place drain of one direction is that of the model and counts what it moved |
| AnticipatoryCode.AsData.ForcedDispatch | linux-2.6.31/block/as-iosched.c:1031-1058 | the in-place forced dispatch is that of the model, returns the number moved, and empties both lanes when next_rq is in order |
| AnticipatoryCode.AsData.Select | linux-2.6.31/block/as-iosched.c:1064-1151 | the selection with its jumps makes the choice of the model |
| AnticipatoryCode.AsData.Dispatch | linux-2.6.31/block/as-iosched.c:1024-1181 | the whole in-place dispatch call is the model step, returns its request, and keeps the invariant |
| AnticipatoryCode.AsData.Completed | linux-2.6.31/block/as-iosched.c:840-890 | the in-place completion handler is the model step and keeps the invariant |
| CfqProofs.ServiceAddOk | linux-2.6.31/block/cfq-iosched.c:492-564 | adding or moving a queue keeps the service tree in order, real-time first and idle last, and the leftmost cache null or right |
| CfqProofs.EraseShape | linux-2.6.31/block/cfq-iosched.c:443-448 | erasing a queue keeps the service tree in order and the leftmost cache null or right |
| CfqProofs.AddRrOk | linux-2.6.31/block/cfq-iosched.c:645-655 | a queue joins the list, the tree and the counters together |
| CfqProofs.DelRrOk | linux-2.6.31/block/cfq-iosched.c:661-678 | a queue leaves the list, the tree and the counters together |
| CfqProofs.ChoiceIsBest | linux-2.6.31/block/cfq-iosched.c:333-421 | sync before async, then metadata before data, then the cheaper seek |
| CfqProofs.InsertRequestOk | linux-2.6.31/block/cfq-iosched.c:698-729 | the agreement of tree, flags, counters and queues survives inserting a request, with one at the same position dispatched first, even if that emptied the queue |
| CfqProofs.RepositionOk | linux-2.6.31/block/cfq-iosched.c:731-736 | the agreement of tree, flags, counters and queues survives repositioning after a front merge, when the request is off the tree but still next |
| CfqProofs.MergedOk | linux-2.6.31/block/cfq-iosched.c:822-834 | the agreement of tree, flags, counters and queues survives merging two requests |
| CfqProofs.DispatchOk | linux-2.6.31/block/cfq-iosched.c:780-795 | the agreement of tree, flags, counters and queues survives dispatching any queued request |
| CfqProofs.ResortOk | linux-2.6.31/block/cfq-iosched.c:630-639 | the agreement of tree, flags, counters and queues survives moving a queue to its new place |
| CfqProofs.NewQueueOk | linux-2.6.31/block/cfq-iosched.c:1649-1667 | the agreement of tree, flags, counters and queues survives a new empty queue |
| CfqProofs.StepOk | linux-2.6.31/block/cfq-iosched.c:492-1124 | the agreement of tree, flags, counters and queues survives every step |
| CfqProofs.FirstOk | linux-2.6.31/block/cfq-iosched.c:426-435 | the cached or looked-up first queue is first in service order |
| CfqProofs.Agreement | linux-2.6.31/block/cfq-iosched.c:492-736 | after any run a queue is in the service tree iff it is on_rr iff its sort_list is non-empty iff next_rq is non-null; busy_queues and busy_rt_queues count exactly those; the tree is in order of class and then key, so the cache is null or the true minimum, real-time first and idle last |
| CfqProofs.DispatchDrains | linux-2.6.31/block/cfq-iosched.c:1111-1124 | a dispatched request leaves exactly one queue, and no other queue changes |
| CfqCode.CfqData.Walk | linux-2.6.31/block/cfq-iosched.c:524-563 | the tree walk inserts behind everything not strictly after, and sets the cache exactly when it never went right |
| CfqCode.CfqData.ServiceTreeAdd | linux-2.6.31/block/cfq-iosched.c:492-564 | the in-place function is that of the model, idle key included |
| CfqCode.CfqData.RbFirst | linux-2.6.31/block/cfq-iosched.c:426-435 | the in-place look-up caches and returns the first queue of the tree |
| CfqCode.CfqData.RbErase | linux-2.6.31/block/cfq-iosched.c:443-448 | the in-place erasure clears the cache if it named the queue, and is that of the model |
| CfqCode.CfqData.AddCfqqRr | linux-2.6.31/block/cfq-iosched.c:645-655 | the in-place insertion of a busy queue is that of the model |
| CfqCode.CfqData.DelCfqqRr | linux-2.6.31/block/cfq-iosched.c:661-678 | the in-place removal of an idle queue is that of the model |
| CfqCode.CfqData.DispatchInsertRq | linux-2.6.31/block/cfq-iosched.c:1111-1124 | the in-place dispatch of a request is that of the model |
| CfqCode.CfqData.Insert | linux-2.6.31/block/cfq-iosched.c:698-729 | the alias loop ends after at most one dispatch, with the model result |
| CfqCode.CfqData.ForcedDispatchCfqq | linux-2.6.31/block/cfq-iosched.c:1231-1242 | the loop ends with the queue empty, so the BUG_ON on its FIFO does not fire, and every request goes to the dispatch list |
| CfqCode.CfqData.ForcedDispatch | linux-2.6.31/block/cfq-iosched.c:1248-1262 | forced dispatch ends with every queue empty and busy_queues 0, and loses nothing |
| DispatchSort.SortKeepsOrder | linux-2.6.31/block/elevator.c:429-465 | a tail run in one-way elevator order from end_sector stays so, the request goes behind its equals, and the list before the run is unchanged |
| DispatchSort.NeverPassesOthers | linux-2.6.31/block/elevator.c:445-451 | a barrier, a started request, or one of another direction or discard flag is never passed |
| DispatchSort.Place | linux-2.6.31/block/elevator.c:442-462 | everything behind the place may be passed and what stands before it may not |
| DispatchSort.SortedMultiset | linux-2.6.31/block/elevator.c:429-465 | the list gains the request and loses nothing |
| DispatchSort.DrainSorts | linux-2.6.31/block/noop-iosched.c:20-39 | draining requests of one kind into a sorted list of that kind keeps it sorted |
| DispatchSort.NoopDrainSorts | linux-2.6.31/block/noop-iosched.c:20-39 | draining a noop queue of one direction and discard flag into an empty dispatch list yields a sorted permutation |
| DispatchSort.DrainKeepsArrival | linux-2.6.31/block/noop-iosched.c:20-39 | in any queue, requests that may not pass each other leave in the order they came |
| DispatchSort.Noop.Sort | linux-2.6.31/block/elevator.c:429-465 | the backward scan finds the place of the specification |
| DispatchSort.Noop.Add | linux-2.6.31/block/noop-iosched.c:34-39 | requests queue in order of arrival |
| DispatchSort.Noop.Dispatch | linux-2.6.31/block/noop-iosched.c:20-32 | the oldest request is sorted in |
| DispatchSort.Noop.Drain | linux-2.6.31/block/elevator.c:568-580 | draining ends with nr_sorted 0 and the specified list |
| MergeIndex.FindAgreesWithScan | linux-2.6.31/block/elevator.c:346-366 | a look-up finds a request if and only if some mergeable request of the scheduler ends at the offset |
| MergeIndex.ScanKeeps | linux-2.6.31/block/elevator.c:353-357 | lazy removal during a look-up keeps the index in agreement |
| MergeIndex.DelKeeps | linux-2.6.31/block/elevator.c:321-330 | a removed request is in no bucket |
| MergeIndex.FlagKeeps | linux-2.6.31/block/elevator.c:346-366 | marking a request unmergeable needs no work on the index |
| MergeIndex.ForgetKeeps | linux-2.6.31/block/elevator.c:429-440 | a request in no bucket may leave the scheduler |
| MergeIndex.AddKeeps | linux-2.6.31/block/elevator.c:332-344 | a request put back under its new end restores agreement |
| MergeIndex.FrontKeeps | linux-2.6.31/block/elevator.c:523-534 | a front merge needs no repositioning: the end does not move |
| MergeIndex.Index.HashDel | linux-2.6.31/block/elevator.c:321-330 | after deletion the request is in no bucket and all others are where they belong |
| MergeIndex.Index.HashAdd | linux-2.6.31/block/elevator.c:332-338 | after insertion it is in the bucket of its end |
| MergeIndex.Index.Insert | linux-2.6.31/block/elevator.c:644-660 | insertion keeps index, cache and count; the cache is filled only when empty |
| MergeIndex.Index.Find | linux-2.6.31/block/elevator.c:346-366 | the loop returns a request exactly when a scan of the scheduler would |
| MergeIndex.Index.Merged | linux-2.6.31/block/elevator.c:523-534 | after a back or front merge the index agrees with the grown request, which is cached |
| MergeIndex.Index.MergeRequests | linux-2.6.31/block/elevator.c:536-549 | after a request merge the index knows the grown request and not the absorbed one |
| MergeIndex.Index.Refuse | linux-2.6.31/block/blk-merge.c:209-213 | a refused request stays in the index until it is met, and is no longer cached |
| MergeIndex.Index.Dispatch | linux-2.6.31/block/elevator.c:429-440 | a dispatched request is in no bucket and not cached, so last_merge is always null or in the scheduler |
| MergeIndex.Index.ElvMerge | linux-2.6.31/block/elevator.c:488-521 | a candidate is mergeable, allowed and adjacent on the side named; none is returned only if nothing mergeable ends at the bio or some request that does was not allowed |
| Tags.GrowthFits | linux-2.6.31/block/blk-tag.c:106-137 | a grown map holds the old one if and only if twice the requests of the queue cover the tags there are |
| Tags.GrowthCanShrink | linux-2.6.31/block/blk-tag.c:219-264 | a map that is asked to grow and cannot hold the old one: the resize reports it |
| Tags.TagMap.constructor | linux-2.6.31/block/blk-tag.c:106-137 | a new map has no tag in use and the depth asked for, or twice the requests of the queue if that is less |
| Tags.TagMap.Unique | linux-2.6.31/block/blk-tag.c:336-383 | no two requests share a tag |
| Tags.TagMap.FirstZero | linux-2.6.31/block/blk-tag.c:366-370 | the lowest clear bit below the limit |
| Tags.TagMap.Start | linux-2.6.31/block/blk-tag.c:336-383 | the request gets the lowest free tag below its limit, or none because all are carried or too much async I/O is in flight; bit, index and request agree |
| Tags.TagMap.EndTag | linux-2.6.31/block/blk-tag.c:281-315 | the tag is freed; the out-of-range return and both complaints are unreachable, whatever was resized meanwhile |
| Tags.TagMap.Resize | linux-2.6.31/block/blk-tag.c:219-264 | resizing loses no tag, and fails to fit exactly under the condition of GrowthFits |

## Left out

- Locking, RCU, timers, workqueues, sysfs, ioctls, genhd and the settings
  functions: a step is atomic, as under the queue lock.
- AES, Anubis, the other ciphers, `ansi_cprng` and the crypto template registry.
- Barriers, assumptions: runs are disciplined (no fs request is inserted at the
  front, as `blk-barrier.c` itself assumes, and only fs requests carry the hard
  barrier flag), a back insertion finds the scheduler empty after its forced drain
  (LeftBehindBreaksOrder, and ForcedEmptiesIff for the scheduler that may fail
  to), the ordered mode is fixed, the stage bits are consecutive.
- Barriers, progress: discards are all fs requests or none is; the driver
  completes what it is given.
- Barriers, not modelled: merging while a sequence runs, the prepare function,
  `elv_abort_queue`, and the order a device keeps among tagged commands.
- Merging: `BIOVEC_PHYS_MERGEABLE` and `BIOVEC_SEG_BOUNDARY` are one abstract
  relation of adjacent vectors joined with physical contiguity; DMA padding and
  drain buffers of `blk_rq_map_sg`, `nomerges`, and integrity data are left out.
- MergingConserves: bio sizes are whole sectors, as submitted bios are.
- ScatterBoundHolds: runs in which no merge of two requests puts data beside a
  discard; such a merge may lose a segment on a queue that clusters
  (MergeCountIff).  The segment limits are for requests with data, because the
  count of merged discards wraps (DiscardsWrap).
- Completion: the barrier proxy, whose bios are ended by its sequence, and the
  recount of segments after a partial completion, which is `RecalcSegments`.
- UpdateComposes: the first part does not end inside a bio without vectors
  (ComposesIffClean), and no half sectors add up (PositionDrifts).
- CallsAddUp: whole sectors, and no call but the last ends inside a bio without
  vectors, for the same reasons; with data in every bio none does
  (DataSumsClean).
- AllEndOnce: the same calls as in CallsAddUp.
- Schedulers: trees are sorted sequences, and tunables are fixed during a run.
- WritesAreServed: `fifo_batch` is at least 1; with 0 no batch would be counted.
- BatchesNeverMix: insertions and front merges onto a taken position are in the
  runs under the conditions of AliasMixesIff and FrontAliasIff only, because the
  code mixes batches otherwise.
- Anticipatory: forced dispatch is not a step of the runs, because it resets the
  batch and mixes directions (ForcedMixesIff); time is an oracle, and so is the
  answer of as_can_break_anticipation, which may be anything in the results about
  all runs.  `CanBreak` computes it from the statistics, which are given; how they
  are gathered is left out; `HZ` is 1000.
- CFQ: keys, time slices, idling, cooperators and preemption are parameters of
  the steps, so their policy is free; the priority trees and the active queue are
  left out; the class of a queue is fixed; `HZ` is 1000.
- ElvMerge: the candidate of the scheduler for a front merge is a parameter.
- Tags: the bit operations are sequential, so the retry of `test_and_set` is not
  needed, and the busy list is the set of requests that carry a tag.
- Camellia: the contents of the SP tables are parameters; their layout is related
  to the S-boxes of RFC 3713 by `CoreIsRfc`.  The rotated keys are gathered into
  one array after the register code instead of being stored between its steps,
  and left and right words are kept in one array of pairs.
- CBC: the block cipher is a function on byte blocks; the walk over scatterlists
  is the list of its chunks; the block-size mask is a remainder, the same for
  powers of two.  The backward loop makes the same sequence of block operations
  with its last turn taken out of the loop.
