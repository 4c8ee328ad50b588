# DocParse: protocol, decoding, numeric and layout proofs

A Dafny 4.11 verification project about the parts of DocParse whose correctness is
hardest to see in any one function: a concurrent batching service, batched greedy
decoding with a partly replaced key/value cache, bit-exact image resampling, the rules
of canonical results, a CPU pool with shared permits, and a hand-written source masker.
`dafny verify dfyconfig.toml` checks everything.

| files | source | subject |
|---|---|---|
| `TexoRuntime`, `SessionLedger`, `SessionQueue`, `SessionProtocol`, `SessionSafety`, `SessionRuns`, `SessionTheorems`, `SessionReplies` | `optimum-texo/session_manager.py`, `optimum-texo/runtime.py` | the Texo session manager as a state machine over the code between two awaits |
| `Decoding`, `DecodingTheorems`, `Generation` | `crates/formula-texo/src/model.rs`, `session_manager.rs`, `cuda.rs`, `wasm_compat.rs` | batched greedy decoding and its three drivers |
| `Kernels`, `KernelSums`, `FixedPoint`, `Planes`, `Resampling`, `ResamplingLoops`, `BoxReduction`, `Resizing`, `KernelLaws`, `ResamplingLaws`, `ResamplingExamples`, `BoxReductionLaws` | `crates/formula-texo/src/resample.rs` | Pillow-compatible resampling |
| `Preprocessing`, `PreprocessingLaws`, `FlatImages` | `crates/formula-texo/src/preprocess.rs`, `optimum-texo/preprocessing.py` | crop, size guard, centring, normalization; one-colour images end to end |
| `ListForest`, `ListSpans`, `ListValidation`, `ListLaws` | `crates/core/src/validate.rs` | list annotations and the forests they describe |
| `Leases`, `CpuPool`, `CpuPoolSafety`, `CpuPoolTheorems`, `CpuPoolRuns` | `crates/common/src/runtime.rs`, `crates/common/src/lease.rs` | permits, drain tokens and leases |
| `SourceMask`, `SourceMaskLaws` | `scripts/check_wasm_compat.py` | the Rust source masker |
| `Markup`, `MarkupLaws`, `BlockText`, `BlockTextLaws` | `crates/core/src/types.rs`, `crates/core/src/label_policy.rs` | inline markup, block text |
| `Figure`, `FigureDelivery`, `FigureLaws` | `crates/core/src/figure.rs`, `crates/core/src/validate.rs` | figure boxes, containers, delivery |

Pure code is modelled by datatypes and functions. Code that updates objects, buffers or
running variables is modelled a second time by classes and methods with loops, each proved
equal to those functions (or proved directly against what the source promises), so the
lemmas about the functions hold of the loops. The files named `Laws`, `Examples` and
`Replies` say what those functions compute without naming their bodies: what reaches a
caller, which weights a filter has, where a region ends, which pixels count. Neural networks, tokenizers, preprocessing
failures, schedulers and whole callers are parameters or nondeterministic steps.

## What was found

The code was kept as it is in each of these cases, and the exact condition is proved.

- **`close` during `start`.** `close` clears `_accepting`, but a `start` that is still
  loading models sets it again when it finishes, so requests are admitted after `close` has
  returned. `close` is final if and only if no `start` is loading when it is called
  (`CloseIsFinalIff`); `OverlapReopens` is a run of one session in which `close` waits for
  the loading thread, `start` resumes first, and a job is enqueued after `close` returned.
- **Native calls and `close`.** Cancelling a consumer leaves its native call running. `close`
  joins the executors, so no call is running when it has returned (`NativeCallsAreJoined`);
  it always can return once the calls do (`ShutdownCompletes`), and a call that never returns
  holds it up for ever (`HungCallHoldsClose`).
- **Browser batches.** When the last running row is cancelled while a finished peer still
  waits, the native loops keep the peer's text and the browser loop fails the whole batch.
  The loops agree in every other case (`BrowserAgreesIff`); `BrowserLosesFinishedPeer` is a
  run of two crops on a healthy decoder on which they differ.
- **Bold inside underline.** The documentation of `text_with_formatting` leaves bold out
  inside an underline or a strikeout. A superscript or subscript inherits open bold while it
  opens its own decoration; `BoldInsideIff` says exactly when, `ItalicInsideIff` the same of
  italic, and `BoldClosesInsideUnderline` is a two-item line whose bold closes inside the
  underline.
- **The drain barrier.** The caller that collects a CPU result, and a panicking operation,
  return the drain token before the permit and the leases, so the barrier can open while the
  permit is still out (`BarrierBeforePermit`), and after a panic while the only unit of a
  budget is (`BarrierBeforeLeases`). `BarrierIff`, `BarrierAndPermits` and
  `BarrierAndLeases` say exactly what an open barrier means; no input or output is ever left
  behind it.
- **`reduce`.** A flat block keeps its value for every size up to 32832 pixels, but not for
  every larger one: a white block of 33157 pixels becomes 254. `FlatBlockIff` gives the exact
  condition. The size guards keep every accepted crop far below it (`FlatCropIsKept`).

## Model

| member | source | states |
|---|---|---|
| TexoRuntime.PaddingIsUnread | optimum-texo/runtime.py:92-103 | rows padded to the longest of a batch read the same as unpadded ones, because reading stops at the first EOS |
| TexoRuntime.Prepare | optimum-texo/runtime.py:62-69 | the first pass fills exactly the slots of crops that fail preprocessing and batches the others in caller order |
| TexoRuntime.FillSlots | optimum-texo/runtime.py:92-104 | the second pass gives each remaining slot the reply of its own row |
| TexoRuntime.Generate | optimum-texo/runtime.py:56-104 | with a row-wise model every slot holds what its crop alone would get; an exception is raised exactly when some crop is valid and the model does not answer all of them |
| TexoRuntime.SoloReadsToFirstEnd | optimum-texo/runtime.py:92-104 | the text of a crop is decoded from its row up to and including the first EOS and the token count is the place of that EOS; without one, without text or without pixels there is an error |
| SessionLedger.SettleRepliesOnce | optimum-texo/session_manager.py:167-193 | replying to a group finishes all its futures and completes no finished one a second time |
| SessionLedger.ReleaseBalances | optimum-texo/session_manager.py:196-201 | the final loop of a batch finishes every job and reports each with task_done exactly once |
| SessionLedger.GatherBalances | optimum-texo/session_manager.py:135-143 | taking ready jobs keeps the books: each job is moved to the batch, or skipped with its task_done |
| SessionLedger.GatherKeeps | optimum-texo/session_manager.py:135-143 | a gathered batch keeps what it had, never exceeds the batch size, and only unfinished jobs are added |
| SessionLedger.GatherFills | optimum-texo/session_manager.py:135-143 | a gathered batch is full or the queue is empty, what is taken comes from the front, and the order is kept |
| SessionLedger.SkipBalances | optimum-texo/session_manager.py:140-141 | a job that is already done leaves the queue with one task_done |
| SessionLedger.DrainBalances | optimum-texo/session_manager.py:216-220 | draining leaves an empty queue, a zero unfinished count and no pending future |
| SessionLedger.GroupsPartition | optimum-texo/session_manager.py:144-147 | the groups hold exactly the unfinished jobs, each under its own budget, one group a budget |
| SessionLedger.GroupsConserve | optimum-texo/session_manager.py:144-147 | the groups together hold each unfinished job once, whatever the budgets |
| SessionLedger.PutBalances | optimum-texo/session_manager.py:89-91 | putting a job adds it to the queue and to the unfinished count |
| SessionQueues.SessionQueue.GatherReady | optimum-texo/session_manager.py:135-143 | the loop over `get_nowait` computes the ledger's gathering and nothing else changes |
| SessionQueues.SessionQueue.GroupReady | optimum-texo/session_manager.py:144-147 | the grouping loop computes the ledger's groups |
| SessionQueues.SessionQueue.Reply | optimum-texo/session_manager.py:167-178 | the reply loop sets exactly the futures of the group that are still open |
| SessionQueues.SessionQueue.ReleaseBatch | optimum-texo/session_manager.py:196-201 | the `finally` loop computes the ledger's release |
| SessionQueues.SessionQueue.DrainQueue | optimum-texo/session_manager.py:216-220 | the drain loop of `close` computes the ledger's drain |
| SessionSafety.NextGroupBalances | optimum-texo/session_manager.py:148-152 | moving on to the next group with a waiting member, or to the end of the batch, loses no job |
| SessionSafety.GatheredGroups | optimum-texo/session_manager.py:144-152 | the groups of a gathered batch cover all its unfinished jobs |
| SessionSafety.TakeKeeps | optimum-texo/session_manager.py:128-134 | taking a first job, finished or not, keeps the invariant |
| SessionSafety.RunKeeps | optimum-texo/session_manager.py:155-195 | a native call that answers, miscounts or fails keeps the invariant |
| SessionSafety.StopKeeps | optimum-texo/session_manager.py:196-201 | cancelling a consumer anywhere releases its whole batch and keeps the invariant |
| SessionSafety.PlaceKeeps | optimum-texo/session_manager.py:89-104 | an admission that finds space keeps the invariant |
| SessionSafety.BeginCloseKeeps | optimum-texo/session_manager.py:203-211 | the first step of `close` keeps the invariant |
| SessionSafety.WorkersJoinedKeeps | optimum-texo/session_manager.py:214-220 | joining the consumers and draining the queue keeps the invariant |
| SessionSafety.StepKeeps | optimum-texo/session_manager.py:43-229 | every step of callers, consumers, `start` and `close`, in every interleaving without overlapping `start` and `close`, keeps the invariant |
| SessionRuns.JobsAreConserved | optimum-texo/session_manager.py:128-147 | in every reachable state each admitted, unreported job is in exactly one place, capacities hold, the unfinished count counts those places, and nothing was completed or reported once too often |
| SessionRuns.AnswersAreFinal | optimum-texo/session_manager.py:110-113 | a reply and a returned call never change, and a caller gets the reply of its own future |
| SessionRuns.CloseFinishesEverything | optimum-texo/session_manager.py:203-229 | when `close` has returned the queue is empty, the unfinished count is zero, every job ever enqueued has its reply and every caller can return |
| SessionRuns.ClosedStaysShut | optimum-texo/session_manager.py:73-104 | after `close` no step enqueues another job until `start` is called; this rests on submit's check and registration being one step |
| SessionTheorems.RunTouchesOnlyItsGroup | optimum-texo/session_manager.py:155-193 | one native call, answered or failed, replies to its own group and changes no other future; what it replies is said by the rows of `SessionReplies` |
| SessionTheorems.BatchingIsInvisible | optimum-texo/session_manager.py:144-193 | over every run each answer is what a batch of just that crop at its own budget would give; `AnswersAreDelivered` and `AdmittedCallsAreAnswered` say that there are such answers |
| SessionTheorems.NobodyIsDropped | optimum-texo/session_manager.py:196-201 | without `close` or a failed `start` no job is ever released as stopped |
| SessionTheorems.LoadingOpens | optimum-texo/session_manager.py:49-68 | nothing stops a `start` that is loading from opening admission |
| SessionTheorems.CloseIsFinalIff | optimum-texo/session_manager.py:203-205 | `close` is final if and only if no `start` is loading when it begins |
| SessionTheorems.OverlapReopens | optimum-texo/session_manager.py:49-72 | a run from the beginning in which `close` waits for a loading model, `start` then opens admission, `close` returns and a job is enqueued |
| SessionTheorems.ShutdownCompletes | optimum-texo/session_manager.py:203-229 | a `close` that has begun can always finish by delivering the cancellations it requested and letting native calls return; nothing else is needed from callers |
| SessionTheorems.NativeCallsAreJoined | optimum-texo/session_manager.py:221-228 | when `close` has returned no native call is running, although cancelled consumers left theirs behind |
| SessionTheorems.HungCallHoldsClose | optimum-texo/session_manager.py:221-228 | as long as a call that was left behind does not return, `close` does not return |
| SessionTheorems.OneCallPerExecutor | optimum-texo/session_manager.py:49-62 | consumers have executors of their own, and an executor is inside a native call exactly while its live consumer awaits one, so no model is used twice at once and no call queues |
| SessionReplies.AnswersAreDelivered | optimum-texo/session_manager.py:155-178 | a call that returns one outcome for each crop gives each member that still waits the outcome at its own position |
| SessionReplies.FailuresAreDelivered | optimum-texo/session_manager.py:164-193 | a call that raises or miscounts fails each member that still waits |
| SessionReplies.SoloAnswersAreDelivered | optimum-texo/session_manager.py:155-178 | when `generate` keeps its promise each waiting member has the answer of its own crop at its own budget |
| SessionReplies.AnswerReachesCaller | optimum-texo/session_manager.py:110-113 | and its caller, unless cancelled, returns at its next step with exactly that answer |
| SessionReplies.CancelledCallerReturns | optimum-texo/session_manager.py:110-113 | a caller cancelled while it awaits its reply can return at once without one |
| SessionReplies.CancelledStays | optimum-texo/session_manager.py:111-113 | its future stays cancelled over every run |
| SessionReplies.CancelledAdmissionReturns | optimum-texo/session_manager.py:96-104 | a caller cancelled while it waits for space is never enqueued, returns in two steps, and is told that the service stopped exactly when it no longer accepts requests |
| SessionReplies.CancelledAfterAdmission | optimum-texo/session_manager.py:96-113 | a caller cancelled just after its job was enqueued returns at its next step and its future is cancelled |
| SessionReplies.AdmittedCallsAreAnswered | optimum-texo/session_manager.py:115-195 | in every serving state the consumers can finish everything by themselves, and then every admitted call that still waited has the answer of its own crop at its own budget |
| SessionReplies.AcceptingServes | optimum-texo/session_manager.py:49-72 | in every state reached without overlap in which requests are accepted, consumers are at work |
| SessionReplies.RequestIsServed | optimum-texo/session_manager.py:73-195 | whenever requests are accepted and there is room, a request can be submitted and the consumers' own steps lead to its return with exactly the answer its crop gets alone |
| Decoding.FirstMax | crates/formula-texo/src/model.rs:250-261 | the strict comparison picks the first maximum |
| Decoding.AdvanceRows | crates/formula-texo/src/model.rs:238-265 | all rows advance together, or the batch fails exactly when some running row has a non-finite logit |
| DecodingTheorems.CachesAfterAdvance | crates/formula-texo/src/model.rs:269-283 | a step takes all eight KV tensors from the output when it is the first, and afterwards tensors 0, 1, 4 and 5; 2, 3, 6 and 7 stay as they were |
| DecodingTheorems.RowsAfterAdvance | crates/formula-texo/src/model.rs:238-265 | a finished row keeps its tokens and stays finished, a running one gets its first largest token, which is its next input and finishes it exactly when it is 2 |
| Generations.Generation.Cancel | crates/formula-texo/src/model.rs:188-201 | the loop finishes exactly the cancelled rows, leaves tokens and caches alone, and tells whether all rows are finished |
| Generations.Generation.Advance | crates/formula-texo/src/model.rs:225-285 | the in-place step equals the pure step in tokens, next ids, finished flags, caches and step counter; the lemmas on `CachesAfterAdvance` and `RowsAfterAdvance` say what that step is |
| Generations.Generation.ReplaceCache | crates/formula-texo/src/model.rs:269-283 | the loop replaces exactly the cache entries the step produces, which are those `CachesAfterAdvance` lists, and a missing one is an error |
| Generations.RecognizeStandard | crates/formula-texo/src/session_manager.rs:240-263 | the native driver computes the shared loop |
| Generations.StaysReady | crates/formula-texo/src/cuda.rs:109-121 | after a step the values bound earlier are still the ones the next step needs |
| Generations.BindStep | crates/formula-texo/src/cuda.rs:94-121 | each binding round makes the session read exactly the plain path's named inputs |
| Generations.RecognizeCuda | crates/formula-texo/src/cuda.rs:79-143 | binding hidden states once and cross-attention caches only at step 1 computes the same loop |
| Generations.NamesAreDistinct | crates/formula-texo/src/wasm_compat.rs:252-259 | the eleven canonical input names are distinct |
| Generations.ResolveOrder | crates/formula-texo/src/wasm_compat.rs:250-281 | the order is resolved exactly for the permutations of the eleven inputs, and it is that permutation |
| Generations.RetainedAreEncoder | crates/formula-texo/src/model.rs:275-278 | the tensors a later step keeps are exactly those named after the encoder |
| Generations.RunDecoder | crates/formula-texo/src/wasm_compat.rs:128-186 | moving values through the permuted slots feeds the decoder the plain inputs and gives hidden states and caches back unchanged |
| Generations.RecognizeBrowser | crates/formula-texo/src/wasm_compat.rs:322-334 | the browser driver computes the browser loop |
| DecodingTheorems.AdvanceTracks | crates/formula-texo/src/model.rs:225-285 | one advance of the batch is one greedy step of every unfinished row; the solo step has a cache rule of its own, with the four cross-attention tensors listed |
| DecodingTheorems.BatchRefinesSolo | crates/formula-texo/src/session_manager.rs:241-262 | whenever the loop returns, every row that was not cancelled has the tokens and the verdict of a single-row greedy run |
| DecodingTheorems.GreedyIsBounded | crates/formula-texo/src/model.rs:250-264 | a greedy run has at most 1024 tokens, finishes only with token 2 and gives up only at the cap |
| DecodingTheorems.NoTruncatedReading | crates/formula-texo/src/model.rs:288-305 | a caller who stayed gets the text of all tokens of its own decoding, with its only end token last, or is refused, exactly when that decoding fills 1024 tokens without an end token |
| DecodingTheorems.FailsOnlyWhenAllGone | crates/formula-texo/src/session_manager.rs:241-249 | with a healthy decoder the batch fails only when every caller is gone at one look |
| DecodingTheorems.BrowserAgreesIff | crates/formula-texo/src/wasm_compat.rs:323-331 | the browser loop agrees with the native loop except exactly when the last running row is cancelled before a finished peer is returned |
| DecodingTheorems.BrowserLosesFinishedPeer | crates/formula-texo/src/wasm_compat.rs:323-331 | two crops on a healthy decoder: the first is finished, the second caller leaves, the native loop returns the first text and the browser loop fails |
| DecodingTheorems.BrowserRefinesSolo | crates/formula-texo/src/wasm_compat.rs:323-334 | what the browser returns is also the single-row result |
| Kernels.WindowsFit | crates/formula-texo/src/resample.rs:110-125 | every window is nonempty, inside the source, contains the pixel under its center and is shorter than `ksize` |
| Kernels.WindowsAdvance | crates/formula-texo/src/resample.rs:110-125 | window starts and ends never move backwards |
| Kernels.UnitWindowsCover | crates/formula-texo/src/resample.rs:110-125 | at unit scale the windows reach both ends of the line |
| KernelSums.EvalBounds | crates/formula-texo/src/resample.rs:58-80 | both filter curves stay below one, above their small negative lobe, and at least 3/8 near the center; the rows of `KernelLaws` fix the curves |
| KernelSums.TotalPositive | crates/formula-texo/src/resample.rs:126-136 | the weights of every window have a positive sum, so the division is always taken and never by zero |
| KernelLaws.CurveShape | crates/formula-texo/src/resample.rs:58-80 | both curves are even, vanish outside their support, are one at zero and zero at the other integers |
| KernelLaws.BicubicReproduces | crates/formula-texo/src/resample.rs:68-78 | at every offset the four bicubic taps sum to one and reproduce the line and the parabola through their places |
| KernelLaws.BilinearReproduces | crates/formula-texo/src/resample.rs:61-66 | at every offset the two bilinear taps sum to one and reproduce the line |
| KernelLaws.EnlargingKeepsRamps | crates/formula-texo/src/resample.rs:94-139 | at scales up to one the weights of every window that is not cut off sum to one and average to the place of the output pixel, for both filters |
| ResamplingExamples.EdgeAcross | crates/formula-texo/src/resample.rs:94-190 | a row 0, 0, 255, 255 halved is 21, 234 with the bicubic and 36, 219 with the bilinear filter, through every stage of the code |
| ResamplingExamples.EdgeDown | crates/formula-texo/src/resample.rs:94-214 | and so is a column |
| FixedPoint.AccumulateWraps | crates/formula-texo/src/resample.rs:179-185 | wrapping at each of the 32-bit steps is wrapping the exact sum once |
| FixedPoint.NearestByte | crates/formula-texo/src/resample.rs:157-185 | while the sum does not wrap, the sample is the byte nearest to the weighted sum in units of 2^22, the upper one on a tie, saturated at both ends |
| FixedPoint.KernelSumsToOne | crates/formula-texo/src/resample.rs:140-149 | the rounded kernel sums to 2^22 within half its length |
| FixedPoint.FlatSample | crates/formula-texo/src/resample.rs:158-185 | a flat window with 255 * length < 2^22 keeps its value, for both filters |
| FixedPoint.BilinearNeverWraps | crates/formula-texo/src/resample.rs:179-185 | for bilinear, whatever the bytes and the window, no partial sum leaves the 32-bit range |
| FixedPoint.WeightFits | crates/formula-texo/src/resample.rs:142-149 | every fixed-point weight fits an i32 |
| Resampling.VerticalOnRows | crates/formula-texo/src/resample.rs:193-214 | the vertical pass over some rows with shifted bounds equals the one over all rows |
| Resampling.RowWindowIsExact | crates/formula-texo/src/resample.rs:217-256 | resampling only the needed rows horizontally gives the image of the two full passes, whether or not a vertical pass follows |
| ResamplingLaws.ReadsOnlyItsWindows | crates/formula-texo/src/resample.rs:163-256 | a sample of the result depends only on its own channel in the rows and columns its two windows select |
| Resampling.FlatStaysFlat | crates/formula-texo/src/resample.rs:217-256 | a flat channel keeps its value for both filters on axes whose windows hold 255 * length < 2^22 |
| Resampling.ModestScale | crates/formula-texo/src/resample.rs:94-125 | at up to 128 source pixels for one all windows are that short |
| ResamplingLoops.FillWeights | crates/formula-texo/src/resample.rs:126-139 | the weight buffer ends up normalized and zero beyond the window |
| ResamplingLoops.PrecomputeCoeffs | crates/formula-texo/src/resample.rs:94-154 | the buffers hold every window and normalized fixed-point kernel; the curves behind them are fixed by `KernelLaws` |
| ResamplingLoops.ResampleHorizontal | crates/formula-texo/src/resample.rs:163-190 | the nested loops fill the buffer with the horizontal pass, all indices in range |
| ResamplingLoops.ResampleVertical | crates/formula-texo/src/resample.rs:193-214 | the nested loops fill the buffer with the vertical pass, all indices in range |
| ResamplingLoops.ShiftBounds | crates/formula-texo/src/resample.rs:238-240 | the vertical bounds are moved by the first needed row and stay non-negative |
| ResamplingLoops.Resample | crates/formula-texo/src/resample.rs:217-256 | the whole function returns what the plain two passes return, as `EdgeAcross`, `EdgeDown` and `ReadsOnlyItsWindows` describe them |
| BoxReduction.ExactIff | crates/formula-texo/src/resample.rs:258-268 | the stored value never exceeds the rounded average, and equals it exactly when the remainder makes up for the truncated reciprocal |
| BoxReduction.WithinOne | crates/formula-texo/src/resample.rs:258-268 | for up to 65536 bytes the stored value is the rounded average or one less, and at most 255 |
| BoxReduction.WithinOneIff | crates/formula-texo/src/resample.rs:258-268 | for blocks of any size, exactly when the stored value is at most one below the rounded average |
| BoxReduction.LargeBlockCanLoseTwo | crates/formula-texo/src/resample.rs:258-268 | a block of 66053 bytes that loses two steps |
| BoxReduction.ExactForDivisors | crates/formula-texo/src/resample.rs:266-268 | block sizes that divide 2^24 average exactly |
| BoxReduction.FlatBlockIff | crates/formula-texo/src/resample.rs:287-299 | exactly when a flat block keeps its value |
| BoxReduction.FlatBlock | crates/formula-texo/src/resample.rs:287-299 | every flat block of up to 32832 bytes keeps its value |
| BoxReduction.FlatBlockCanLose | crates/formula-texo/src/resample.rs:287-299 | a white block of 33157 pixels becomes 254 |
| BoxReduction.ReducedIsAverage | crates/formula-texo/src/resample.rs:272-304 | every sample of a reduced plane whose actual block, trailing ones included, has up to 65536 pixels is its block's rounded average or one less |
| BoxReduction.FlatReduces | crates/formula-texo/src/resample.rs:272-304 | reducing a flat channel keeps its value in every block of up to 32832 actual pixels |
| BoxReduction.Reduce | crates/formula-texo/src/resample.rs:272-304 | the nested loops compute the reduced plane, all indices in range |
| BoxReductionLaws.BlocksTile | crates/formula-texo/src/resample.rs:281-287 | the blocks cut the plane so that each pixel lies in the one block its coordinates divide to |
| BoxReductionLaws.EachPixelCountsOnce | crates/formula-texo/src/resample.rs:288-297 | a pixel that grows by an amount makes the sum of its own block grow by it and no other |
| Resizing.BoxInside | crates/formula-texo/src/resample.rs:324-328 | the box of a pre-reduced image ends inside its last pixel |
| Resizing.Resize | crates/formula-texo/src/resample.rs:307-331 | resizing is pre-reduction and resampling on the scaled box |
| Resizing.ThumbnailFits | crates/formula-texo/src/resample.rs:335-361 | both sides of a thumbnail are between 1 and the limit, and one side fills it when the image does not fit |
| Resizing.RoundAspectPrefers | crates/formula-texo/src/resample.rs:363-370 | for every number: the better of floor and ceiling, the floor on a tie, and never below one |
| Resizing.TallWidthIsBest | crates/formula-texo/src/resample.rs:341-346 | no positive width of a tall thumbnail is closer to the aspect ratio |
| Resizing.WideHeightIsBest | crates/formula-texo/src/resample.rs:347-356 | no positive height of a wide thumbnail is closer to the aspect ratio |
| Resizing.ThumbnailKeepsAspect | crates/formula-texo/src/resample.rs:335-361 | of an image that does not fit, the long side fills the square and no other short side is closer to its aspect ratio |
| Resizing.Thumbnail | crates/formula-texo/src/resample.rs:335-361 | the thumbnail has that size and is the bicubic resize with gap 2 |
| Resizing.StretchedIsFloor | crates/formula-texo/src/resample.rs:379-383 | the real quotient of the long side is the integer one |
| Resizing.ResizeShortSide | crates/formula-texo/src/resample.rs:374-386 | the short side gets the wanted size, the long side the floor of the proportion |
| Preprocessing.GuardsAgree | optimum-texo/preprocessing.py:19-25 | the Python guard and the Rust guard accept exactly the same cropped sizes |
| Preprocessing.AcceptedResize | crates/formula-texo/src/preprocess.rs:122-134 | an accepted crop is resized to at most 16777216 pixels, with both sides at least 384 |
| Preprocessing.RejectedResize | crates/formula-texo/src/preprocess.rs:122-133 | a rejected crop would have exceeded the limit |
| Preprocessing.LumaOfBytes | crates/formula-texo/src/preprocess.rs:26-37 | both luma kernels stay within a byte and keep greys |
| PreprocessingLaws.LumaIsWeighted | crates/formula-texo/src/preprocess.rs:26-37 | both grey kernels are less than 0.52 of a level from 0.299 r + 0.587 g + 0.114 b |
| PreprocessingLaws.InkIff | crates/formula-texo/src/preprocess.rs:58-64 | ink is what lies in the darker 200/255 of the range; the darkest level always does and the brightest never |
| Preprocessing.TightIsUnique | crates/formula-texo/src/preprocess.rs:54-74 | there is only one tight box around the ink |
| Preprocessing.DarkestIsInk | crates/formula-texo/src/preprocess.rs:58-59 | an image that is not flat always has ink, so the crop is never empty |
| Preprocessing.FindBox | crates/formula-texo/src/preprocess.rs:54-74 | the running bounds end as the tight box of the ink pixels |
| Preprocessing.CropMargin | crates/formula-texo/src/preprocess.rs:41-87 | the crop is the image inside that box, or the whole image when it is flat |
| Preprocessing.PadCenter | crates/formula-texo/src/preprocess.rs:90-100 | the canvas holds the image in the middle and is black elsewhere |
| PreprocessingLaws.CentredInMiddle | crates/formula-texo/src/preprocess.rs:90-100 | the margins on both sides differ by at most one pixel, the smaller one first, and are black |
| Preprocessing.NormalizedIsReference | crates/formula-texo/src/preprocess.rs:19-24 | the two constants normalize like mean 0.7931 and deviation 0.1738, up to a millionth |
| Preprocessing.Preprocess | crates/formula-texo/src/preprocess.rs:103-155 | exactly the sound buffers whose crop the guards accept are transformed into three equal normalized channels, every index in range; the others get the matching error |
| FlatImages.ShortSideScale | crates/formula-texo/src/preprocess.rs:122-134 | the short-side resize shrinks no side of an accepted crop more than 128 times |
| FlatImages.ThumbnailBlocks | crates/formula-texo/src/resample.rs:316-330 | the thumbnail of an accepted crop averages blocks of at most 32832 pixels |
| FlatImages.FlatCropIsKept | crates/formula-texo/src/preprocess.rs:134-136 | a flat channel of any accepted crop is exact on the canvas and black around it |
| FlatImages.OneColourIsKept | crates/formula-texo/src/preprocess.rs:103-136 | an accepted one-colour buffer is not cropped and ends as that colour in the middle of the canvas |
| ListForest.AcceptedIsForest | crates/core/src/validate.rs:171-211 | an accepted annotation is the layout of an ordered forest |
| ListForest.ForestIsAccepted | crates/core/src/validate.rs:171-211 | every fitting forest laid out on lines passes the replay and is recovered from it |
| ListForest.CloseKeepsLines | crates/core/src/validate.rs:196-197 | truncating the active stack moves no line |
| ListForest.RunReads | crates/core/src/validate.rs:174-211 | the replay has always read exactly the lines so far |
| ListSpans.SpanIsFamily | crates/core/src/validate.rs:171-211 | every line between an item's first and last line belongs to it or a descendant |
| ListSpans.SpansNest | crates/core/src/validate.rs:171-211 | the spans of two items are nested or disjoint |
| ListSpans.GroupIsOneRun | crates/core/src/validate.rs:182-190 | each group is one unbroken run of owned lines |
| ListSpans.ParentIsActive | crates/core/src/validate.rs:191-195 | an item at level k > 0 starts under an active parent at level k - 1 |
| ListValidation.ListedOwners | crates/core/src/validate.rs:109-170 | what the first pass checks is what the replay assumes about owners |
| ListValidation.ValidIffForest | crates/core/src/validate.rs:84-214 | among annotations that pass the first pass, the accepted ones are exactly the layouts of forests |
| ListValidation.ValidIsAccepted | crates/core/src/validate.rs:84-214 | an accepted annotation meets the hypotheses of all the span lemmas |
| ListValidation.ClaimItems | crates/core/src/validate.rs:106-170 | the first pass accepts exactly the well-listed annotations and fills the owner of every line |
| ListValidation.Replay | crates/core/src/validate.rs:172-212 | the stack of item indices accepts exactly what the replay on trees accepts |
| ListValidation.Validate | crates/core/src/validate.rs:84-214 | the whole check accepts exactly the valid annotations |
| ListLaws.LineOfIff | crates/core/src/validate.rs:99-105 | an id stands for the last line of the block that carries it |
| ListLaws.ListedIff | crates/core/src/validate.rs:106-170 | the first pass, which compares neighbours, accepts exactly the lists whose markers match, whose lines and groups are in order as a whole, whose groups begin at level zero and whose lines are used once |
| ListLaws.ValidIff | crates/core/src/validate.rs:84-214 | the whole check accepts exactly empty lists and, on body text without a table, such lists that are the layout of an ordered forest |
| Leases.ReleaseKeeps | crates/common/src/lease.rs:53-68 | dropping a handle keeps the counts and budgets; a lease that loses its last owner returns its permit once, and so on up the parents |
| Leases.AcquireKeeps | crates/common/src/lease.rs:70-88 | a reservation takes one free permit and one handle on its parent |
| Leases.EnclosingAreLive | crates/common/src/lease.rs:53-61 | a live nested lease keeps every enclosing lease live |
| Leases.FreeWithinCapacity | crates/common/src/lease.rs:27-51 | a budget never has more free permits than its capacity, and all of them exactly when no lease of it is live |
| Leases.ReleaseOnlyReturns | crates/common/src/lease.rs:53-61 | dropping handles never takes a permit from any budget |
| Leases.LeaseBook.Reserve | crates/common/src/lease.rs:42-88 | a reservation is refused exactly on a closed budget, waits exactly while an open one is used up, and otherwise takes one permit and its parent |
| Leases.LeaseBook.Close | crates/common/src/lease.rs:47-50 | closing refuses later reservations and leaves granted leases and permits alone |
| Leases.LeaseBook.Drop | crates/common/src/lease.rs:53-61 | dropping the last handle drops the permit and then the parent handle |
| CpuPools.CpuOwned.IntoInner | crates/common/src/runtime.rs:161-166 | a consumed value is handed over once and no cleanup is scheduled for it |
| CpuPools.CpuOwned.Drop | crates/common/src/runtime.rs:168-181 | a value that was not consumed is scheduled for cleanup exactly once |
| CpuPoolSafety.DropsOne | crates/common/src/runtime.rs:137-148 | each drop of a tuple or of local variables gives up at most one owner |
| CpuPoolSafety.StepKeeps | crates/common/src/runtime.rs:92-181 | every step of submitting, admission, execution, panic, cancellation, collection, cleanup and lease traffic keeps the books of permits, tokens and leases |
| CpuPoolTheorems.RunKeeps | crates/common/src/runtime.rs:92-181 | the books are kept over every run |
| CpuPoolTheorems.AdmittedStartsAtOnce | crates/common/src/runtime.rs:111-117 | operations that run or unwind a panic never exceed the threads and an admitted one never queues |
| CpuPoolTheorems.PayloadIsCovered | crates/common/src/runtime.rs:101-148 | while an input or output is alive its token, its permit after admission, and its leases with all enclosing ones are held |
| CpuPoolTheorems.OwnersNeverReturn | crates/common/src/runtime.rs:137-181 | permit, token and leases of a submission are each given up at most once and never taken back |
| CpuPoolTheorems.BarrierIff | crates/common/src/runtime.rs:264-273 | the barrier is open exactly when every submission is past its token, and then no input or output is left |
| CpuPoolTheorems.BarrierAndPermits | crates/common/src/runtime.rs:145-149 | at an open barrier all permits are back exactly when no submission is between its token and its permit |
| CpuPoolTheorems.BarrierAndLeases | crates/common/src/runtime.rs:117-149 | at an open barrier the submissions hold nothing of a lease exactly when none is in one of the named phases between its token and that lease |
| CpuPoolTheorems.BarrierBeforePermit | crates/common/src/runtime.rs:145-149 | a run in which the barrier opens while the only permit is out |
| CpuPoolTheorems.BarrierBeforeLeases | crates/common/src/runtime.rs:117-136 | a run with a panic in which the barrier opens while the permit and the only unit of a budget are out |
| CpuPoolTheorems.NeverStuck | crates/common/src/runtime.rs:111-117 | while a submission is not done, some submission can move |
| CpuPoolTheorems.Drains | crates/common/src/runtime.rs:264-273 | once producers stop, the pool can always be drained to no submissions, all permits and an open barrier |
| CpuPoolRuns.DropOrder | crates/common/src/runtime.rs:94-149 | in which order a submission lets go of payload, permit, token and leases when it is collected, unwinds, or is destroyed before or after it ran |
| CpuPoolRuns.HeldUntilTheEnd | crates/common/src/runtime.rs:92-142 | it holds everything but the permit while it waits, everything while it is queued, runs or waits for collection, and nothing when done |
| CpuPoolRuns.ThreadsSuffice | crates/common/src/runtime.rs:111-117 | at most as many submissions run or unwind as there are threads, and an admitted one can start at once |
| CpuPoolRuns.StayingCallerIsServed | crates/common/src/runtime.rs:111-150 | over every run, as long as its caller stays and its operation does not panic, a submission is neither destroyed nor unwound, and the caller has its output exactly when it collected it |
| CpuPoolRuns.LeavingCaller | crates/common/src/runtime.rs:153-181 | once a caller leaves, its output is never collected: unadmitted work is destroyed unrun, running work runs to its end and its output is destroyed |
| CpuPoolRuns.EveryCallerCanBeServed | crates/common/src/runtime.rs:92-150 | from every reachable state there is a run without cancellation or panic in which a given caller that stays collects its output |
| SourceMask.MaskKeepsPlaces | scripts/check_wasm_compat.py:78-82 | masking keeps the length and the line ends, and keeps or blanks every other character |
| SourceMask.MaskedIsClean | scripts/check_wasm_compat.py:41-85 | no quote, comment opener, raw string or character literal is left anywhere |
| SourceMask.MaskIsIdempotent | scripts/check_wasm_compat.py:41-85 | a second pass changes nothing |
| SourceMask.StringIsMasked | scripts/check_wasm_compat.py:66-75 | a string literal with any escapes is one region |
| SourceMask.RawIsMasked | scripts/check_wasm_compat.py:62-65 | a raw string is one region, whatever its text, as long as its own closing marker does not begin in it |
| SourceMask.CharIsMasked | scripts/check_wasm_compat.py:76-77 | a plain or escaped character literal is one region |
| SourceMask.CommentIsMasked | scripts/check_wasm_compat.py:51-61 | a block comment with comments nested to any depth, and any text at which no delimiter begins, is one region ended by its own delimiter |
| SourceMask.CommentRegionIff | scripts/check_wasm_compat.py:51-61 | what a block comment opener blanks is such a comment, or it is never closed and takes the whole text |
| SourceMaskLaws.LineIsMasked | scripts/check_wasm_compat.py:47-50 | a line comment is one region that ends before its line end, or at the end of the text |
| SourceMaskLaws.KeptUntilFirst | scripts/check_wasm_compat.py:83-84 | as long as nothing opens the text is kept as it is |
| SourceMaskLaws.OpensIff | scripts/check_wasm_compat.py:47-77 | a region opens exactly where a comment, a raw string, a string or a character literal begins, in the shapes of the two patterns |
| SourceMaskLaws.UnclosedString | scripts/check_wasm_compat.py:66-75 | a string that is never closed takes the rest of the text, also when its last character is a backslash |
| SourceMaskLaws.UnclosedRaw | scripts/check_wasm_compat.py:62-65 | so does a raw string in which its closing marker never begins |
| SourceMask.CodeOnly | scripts/check_wasm_compat.py:41-85 | the scanner computes the mask and terminates; where the regions of the mask begin and end is said by the other rows |
| Markup.OnlyMarkupIsAdded | crates/core/src/types.rs:841-975 | for all items and all sixteen flag settings, erasing the markup gives the source text |
| Markup.MarkupIsClosed | crates/core/src/types.rs:911-972 | every style's opens and closes alternate and end closed; underline and strikeout are never both open |
| Markup.TagsAreNested | crates/core/src/types.rs:920-972 | the HTML tags alone are well nested |
| Markup.BoldInsideIff | crates/core/src/types.rs:889-909 | exactly when an item's text is bold inside its decoration |
| Markup.ItalicInsideIff | crates/core/src/types.rs:889-909 | exactly when an item's text is italic inside its decoration |
| Markup.BoldClosesInsideUnderline | crates/core/src/types.rs:902-909 | a line whose bold closes inside its underline |
| Markup.TextWithFormatting | crates/core/src/types.rs:841-975 | the loop over the items writes the spelled-out tokens |
| MarkupLaws.DominantIsLargest | crates/core/src/types.rs:779-784 | the dominant size is the largest of the line |
| MarkupLaws.ScriptIff | crates/core/src/types.rs:787-819 | exactly which items are raised and which are lowered, by flag or by size and base line |
| MarkupLaws.OneItemText | crates/core/src/types.rs:841-972 | the written text of a line of one item for every setting of the flags: its decoration, bold, italic and script marks from the outside in |
| MarkupLaws.FlagsRestrict | crates/core/src/types.rs:841-909 | a flag that is off turns its style off for every item |
| BlockText.BuildText | crates/core/src/types.rs:1235-1279 | the builder loops compute the projection or the joined lines, which are the texts of `StructuredText` and `FlowIsWoven` |
| BlockText.MatchesProjection | crates/core/src/types.rs:1287-1310 | stripping the text piece by piece accepts exactly the projection |
| BlockText.MatchesFlow | crates/core/src/types.rs:1334-1375 | the running offset accepts exactly the joined lines, which are the text of `FlowIsWoven` |
| BlockText.TextMatchesLines | crates/core/src/types.rs:1282-1376 | the streaming comparison accepts exactly the text of `FlowIsWoven` or `StructuredText` or, for structured labels, one of the two older joins |
| BlockTextLaws.TrimCuts | crates/core/src/types.rs:1235-1279 | trimming cuts white characters off both ends and leaves none there |
| BlockTextLaws.FlowOfTwo | crates/core/src/types.rs:1203-1279 | between two lines stands nothing exactly when a word of a text or title wraps there at an encoded hyphen, and one space otherwise |
| BlockTextLaws.FlowIsWoven | crates/core/src/types.rs:1203-1279 | the same for any number of lines, those without text left out |
| BlockTextLaws.StructuredText | crates/core/src/types.rs:1235-1279 | labels that keep rows and columns take the projection, piece after piece |
| BlockTextLaws.OldJoinsOfTwo | crates/core/src/types.rs:1312-1333 | the two older joins: by line end with the right side trimmed, and by space with both |
| BlockTextLaws.OldJoinsSkipBlank | crates/core/src/types.rs:1312-1333 | lines without text leave no trace in either |
| Figures.PlacedGrows | crates/core/src/figure.rs:234-269 | an expanded box contains its old box and its image |
| Figures.NoNewNesting | crates/core/src/figure.rs:234-269 | however many boxes expand at once, a box that contains another afterwards did before, and neither moved |
| Figures.PlacedStaysSeparate | crates/core/src/validate.rs:738-780 | placing figures keeps the validator's containment rule |
| Figures.Place | crates/core/src/figure.rs:234-270 | the loop decides every block against the boxes as they were before it |
| Figures.CheckSeparate | crates/core/src/validate.rs:738-780 | the pairwise loops accept exactly the pages that meet the rule |
| Figures.Container | crates/core/src/figure.rs:397-439 | the one-pass search finds the image that is smaller than every other qualifying one by the ratio, if there is one |
| Figures.SortedChoice | crates/core/src/figure.rs:413-438 | for every image list: with the qualifying images sorted by area, equal areas in any order, an image is found exactly when the runner-up is beyond the ratio from the first, and it is the first |
| Figures.ChoiceIgnoresOrder | crates/core/src/figure.rs:397-439 | the chosen rectangle, or none, is the same for every order of the images |
| FigureLaws.ContainsIff | crates/layout/src/geometry.rs:135-140 | a box contains another exactly when it covers each of its points |
| FigureLaws.SeparateIff | crates/core/src/validate.rs:738-780 | the accepted pages: of two content boxes, neither detached nor sparse, each has a point the other does not cover |
| FigureLaws.ExpandsIff | crates/core/src/figure.rs:234-269 | a figure takes the smallest box around it and its image exactly when that moves a side by more than half a point and nests with no box as it was before; the old box is kept as evidence |
| FigureLaws.OverlapIsCommonArea | crates/layout/src/geometry.rs:142-146 | two boxes overlap in the area of the largest box inside both, or not at all |
| FigureLaws.HoldsIff | crates/core/src/figure.rs:94-112 | exactly when an image stands behind a layout box: the part on the page is 8 points or more both ways, does not fill nine tenths of the page both ways and covers 85 percent of the layout |
| FigureLaws.ChosenStandsOut | crates/core/src/figure.rs:413-438 | the chosen image is smaller than every other that stands behind the box by a factor above 1.15 |
| FigureDelivery.Attach | crates/core/src/figure.rs:273-364 | every embedded image ends up with a block, in the remaining assets or in a warning, and no image is the asset of two blocks; a block gets its asset exactly when it is visited, the asset succeeds and no earlier block claimed the image |
| FigureLaws.DeliveredSource | crates/core/src/figure.rs:291-335 | which asset a block gets: the raster for composites and unmatched figures, its own image otherwise, nothing when an earlier block has it |
| FigureLaws.ClaimedByIff | crates/core/src/figure.rs:327-341 | an image counts as delivered by a block exactly when it is its match, or a part of a figure shown as raster |

## Left out

- IEEE-754 rounding: f32 and f64 values are exact reals, in filter weights, boxes, fonts, the ink threshold and the tensor.
- Model execution, ONNX and CUDA bindings, tokenizers and image codecs: the decoder is any row-wise function.
- Task cancellation of `close` itself, two concurrent calls of `close` or of `start`, and a failing executor shutdown.
- A consumer that an overlapping `start` adds while `close` joins the earlier ones: the model forgets it with the others.
- `_active` counters, `health`, logging, wall-clock fields of replies and the length of the 3 ms wait.
- A consumer's `queue.get` and an admission may take any queued job or free place: asyncio's FIFO order is not used by any proof.
- Requests that cannot be decoded, engine selection and timing in `ModelSessions::recognize`, which is not part of this model beyond its loops.
- List marker texts: whether a marker prefix matches its source line is a parameter; error messages of the validators are not told apart.
- `PageLease` and `ResourceLease` are both handles of one reference-counted book; tracing spans and dispatchers are not modelled.
- `run_blocking`: its only owner is a tuple dropped in order.
- `Line::project_layout`: what it emits is a parameter of the block text.
- Layout labels with the same policy are one label; Unicode character classes are parameters; texts are compared by character instead of by UTF-8 byte.
- Proper nesting of Markdown marks against HTML tags: it does not hold, see above.
- Pages with more than 2^32 embedded images, whose index `container` drops.
- Inline and file delivery of figures, raster crops and PNG encoding: whether an asset can be written is a parameter of `Attach`.
- `match_detections`, `parts` and their overlap thresholds: the parts of a block are a parameter of `Attach`.
- Id, range, relation and geometry checks of `ResultValidator` outside lists and containment.
