# A verified model of the retention release, memory workers and contract bundler

This project models eight parts of the service and proves what they promise, in Dafny 4.11
(`dafny verify dfyconfig.toml`).

| part | modules |
|---|---|
| OpenAPI bundler: files linked by `$ref` become one self-contained document | JsonPointer, ReferencePlaces, OpenApiBundle, BundleDocument, BundleClosed, BundleMeaning, BundleFaults, BundleExample |
| Retention revision fence: a trigger that counts every change to an audited subject, against the operators that create, extend, abort and promote a preparation | RetentionFence, FenceSafety |
| Contract compile jobs: cutting messages into batches, merging preferences, advancing a cursor through a chain of jobs | Utf8, BatchPlanner, RetainedItems, RetainedEffects, ContractChain, ContractCommits, ContractLiveness, ContractRefusal |
| Conversation checkpoints: the published chain, the budget of model calls, page-by-page re-verification | CheckpointChain, CheckpointOverlap, CallBudget, Reverify |
| Job consumer: leases and fenced confirmation, the claim loop | JobLease, QueueLoop |
| Memory ingest: chunking turns, halving truncated chunks | IngestChunks |
| Shared diary vectors: link, prune and restore | DiaryVectors |
| Residual deletion sweep: closing a deletion after two empty sweeps | ResidualSweep |

Protocols with several processes (fence, compile jobs, checkpoints, leases, claim loop, late
writers) are state machines whose actions are single statements or commits; their theorems speak
of every interleaving. Handlers, planners and tools that run alone are methods and classes proved
against functions. Hashes and digests stand for the values they are computed from, model answers
are arbitrary inputs, time is a number.

## What the proofs found

Where the code does less than its documentation or a natural reading promises, the code is modelled
as it is, a lemma names an input, and the exact condition is proved.

- Room for one character is not enough for a compile lineage to arrive. Truncated output sends it to the
  fallback, whose planner refuses a message of at most 2048 bytes that does not fit whole; every attempt
  then fails before the model is asked, and the job dies (`ContractRefusal.RoomForOneIsNotEnough`). The
  fallback is safe exactly when such messages fit whole and some segment of every longer one fits
  (`ContractLiveness.FallbackArrivesIff`, `SegmentRoomyIs`).
- The rest of a split message can be lost. A message split at an offset is handed on under a key made of cursor,
  message, document and offset; when the job for the rest is restarted, because other messages changed, the
  restart splits again at the same offset, the key is used up, and no job is left although the cursor is
  below its target (`ContractCommits.RestIsLost`). After a split a job that can run is there exactly when
  the key was new or its job has not finished (`CommitSplits`); every other commit leaves one
  exactly when the cursor is below the target, as long as the job is current (`CommitAdvances`, `CommitShrinks`, `CommitRestarts`).
- A public re-verification never commits. Its row has the end of the checkpoint it reviewed, and the
  unique index on published ends rejects a second one (`Reverify.PublicReverifyNeverCommits`); the
  unpublished rows of a building preparation are outside that index.
- Freezing a chunk into a job's payload is not fenced. A consumer whose lease was reaped still overwrites
  the chunk of its successor, or of a finished row; it changes nothing else
  (`JobLease.StaleChangesOnlyTheChunk`, `FinishedKeepsAllButTheChunk`, `StaleFreeze`).
- Halving a truncated chunk is safe for eight attempts exactly when the chunk spans fewer than 128
  turn numbers. Twenty densely numbered turns are far inside; two turns numbered 1 and 129 are not
  (`IngestChunks.SafeWidth`, `DenseIsSafe`, `SparseDies`). With retention on, a turn that is always cut
  off is never passed (`RetentionNeverSkips`).
- The confirming fence of a job row does not look at the lease's end. A holder is confirmed exactly when
  no reaper found its lease run out and its subject is open, however late it comes; only deferring asks
  for an unexpired lease (`JobLease.ConfirmsUnlessReaped`, `LateSuccess`, `PostponedLeavesNothing`).
- A claim loop can sleep out its delay beside a free slot and a claimable job. A finished task sets the
  wake-up event before its done callback frees the slot; a loop that clears the event in between still
  counts the task, finds no slot and sleeps (`QueueLoop.LostWakeReached`). Asleep on full slots, one free
  by now, it can wake exactly when some job set the event after the loop's last clear
  (`FullWakesExactly`); the sleep is never longer than the idle delay (`SleepBounded`). On an empty queue
  no wake-up is lost (`NoLostWake`), and after a failed claim the loop does not watch the event at all
  (`WakesExactly`, `FailedClaimReached`).
- Two publishers of one user whose transactions overlap can fork the checkpoint chain: both insert under
  the same parent, and the unique index only keeps ends apart (`CheckpointOverlap.Forks`). The chain is one
  chain all the way exactly when every commit that publishes still finds the head its insert statement saw
  (`LinearExactly`), and one open transaction at a time is enough for that (`AloneIsQuiet`).
- Linking completes a pending shared row from another document's vector. A reader's answer changes exactly
  when the document had no vector of its own and waited for that row, and then to the reviewed vector;
  pruning and restoring change no answer (`DiaryVectors.Store.ApplyPlan`, `SeedView`, `SeedMayComplete`).
- Overlapping sweep handlers can close a deletion after a single empty sweep, each acting on a count it read
  before (`ResidualSweep.OverlapClosesEarly`). Over every run of them a close is right exactly when the
  ledger, counted at the close, shows enough empty sweeps since the last deletion
  (`OverlapClosesRightly`).
- An exported component entry with keys beside its `$ref` shows those keys at every reference that is
  redirected to it (`BundleMeaning.SiblingLeaks`); bundling preserves meaning when such entries are bare.
- The tags of a discriminator that is itself a reference into another file are read against the file that
  refers to it, and keep their meaning exactly when both files read them as one place, which a tag local to
  its own file never does (`BundleMeaning.InlinedTags`, `InlinedTagKept`, `LocalTagMoves`).
- A reference written under the key `$ref` may be inlined to a string, and the bundle then holds a reference
  nobody wrote (`BundleClosed.NestedRefLeaks`).

## Model

| member | source | states |
|---|---|---|
| JsonPointer.TokenRoundTrip | scripts/openapi_contract.py:55-64 | decoding a reference token inverts the escaping of section 4 of RFC 6901, for every token |
| JsonPointer.PointerRoundTrip | scripts/openapi_contract.py:55-64 | the tokens of an escaped pointer without a percent sign are the tokens it was made from |
| JsonPointer.QuotedRoundTrip | scripts/openapi_contract.py:55-64 | that holds for every list of tokens, and for every way to quote the pointer that quotes its percent signs |
| JsonPointer.HexDigits | scripts/openapi_contract.py:127-146 | percent escapes are read in both cases, and nothing else is a hex digit |
| JsonPointer.ResolvePointer | scripts/openapi_contract.py:67-81 | the resolving loop finds the value its tokens lead to, or the fault at the first token that leads nowhere |
| JsonPointer.ChildNamed | scripts/openapi_contract.py:67-81 | a decimal token names that item of a list, counted from 0, and a miss behind its end; a key names that field of a mapping |
| JsonPointer.ComponentPointerResolves | scripts/openapi_contract.py:113-125 | a pointer written for a component with a pointer-safe name (section 4.8.7 of the OpenAPI Specification 3.1.0) is placed at exactly that component |
| ReferencePlaces.UpCancels | scripts/openapi_contract.py:127-146 | a name and `..` behind it cancel wherever they stand, `.` and empty segments are nothing, and `..` stays at the top |
| ReferencePlaces.PlacesRelatively | scripts/openapi_contract.py:127-146 | from any file of the contract, a path up to a common directory and down again, with a fragment quoted in any way, leads to that file and those tokens |
| ReferencePlaces.PlacesAcross | scripts/openapi_contract.py:135-146 | so a reference `../d/f#pointer` written in a file of another directory is placed in file f of directory d |
| ReferencePlaces.LeavingIsRefused | scripts/openapi_contract.py:127-133 | a path that goes up past the contract's directory to another name is refused |
| ReferencePlaces.AbsoluteAndWhole | scripts/openapi_contract.py:135-146 | an absolute path does not depend on the file, and without a fragment the whole file is meant |
| OpenApiBundle.StackGrows | scripts/openapi_contract.py:174-190 | following an unexported reference uses up one of finitely many targets: the measure that ends the walk on cyclic graphs |
| OpenApiBundle.NoTableForTwo | scripts/openapi_contract.py:113-125 | two component entries for one target leave no consistent export table |
| OpenApiBundle.CollectExports | scripts/openapi_contract.py:107-125 | the constructor's loops find the one export table, or fail exactly when there is none |
| BundleDocument.Build | scripts/openapi_contract.py:206-245 | the loops of build return the bundle with valid internal references, or refuse only when there is no such bundle; a bundle with broken ones is refused with just the faults of its references |
| BundleDocument.BundleUnique | scripts/openapi_contract.py:206-243 | a contract has at most one bundle, whatever order its mappings are visited in |
| BundleClosed.WalkClosed | scripts/openapi_contract.py:152-204 | every reference the walk leaves behind is an exported component pointer |
| BundleClosed.BundleIsClosed | scripts/openapi_contract.py:96-103 | every reference of a bundle is the pointer of an exported entry and resolves inside the bundle, so the closing validation cannot fail |
| BundleClosed.NestedRefLeaks | scripts/openapi_contract.py:160-191 | a reference under the key "$ref" that is inlined to a string makes a reference of that string |
| BundleMeaning.LookForward | scripts/openapi_contract.py:152-191 | what following references shows at a node of the linked files, it shows alike at its copy in the bundle, through redirects, inlining and overriding siblings |
| BundleMeaning.LookBackward | scripts/openapi_contract.py:152-191 | conversely, a copy shows nothing the linked files do not show in finitely many steps |
| BundleMeaning.MeaningPreserved | scripts/openapi_contract.py:206-245 | for every finite path of keys and indices the bundle and the linked files give the same answer, cycles included; where a reference leads is fixed by ReferencePlaces |
| BundleExample.FaithfulExists | scripts/openapi_contract.py:206-245 | a contract whose root exports a schema of a file in a subdirectory, which refers back to itself through `..`, meets all the conditions |
| BundleMeaning.FindsOne | scripts/openapi_contract.py:152-191 | a path finds at most one answer, so equal answers mean equal meaning |
| BundleMeaning.TagMeansTarget | scripts/openapi_contract.py:193-204 | following a tag rewritten against a file answers, in the bundle, like following the original tag from that file |
| BundleMeaning.WrittenTags | scripts/openapi_contract.py:193-204 | the tags of a discriminator written in the walked file are rewritten against that file |
| BundleMeaning.InlinedTags | scripts/openapi_contract.py:193-204 | the tags of a discriminator inlined from another file are rewritten against the file that refers to it |
| BundleMeaning.InlinedTagKept | scripts/openapi_contract.py:193-204 | such a tag is rewritten as in its own file exactly when both files place it alike |
| BundleMeaning.LocalTagMoves | scripts/openapi_contract.py:135-146 | a tag local to its own file names another place from any other file |
| BundleMeaning.SiblingLeaks | scripts/openapi_contract.py:171-173 | an exported entry with siblings changes what redirected references show |
| BundleFaults.WalkFaults | scripts/openapi_contract.py:152-204 | every fault the walk raises is at a place in the documents: a closed chain of unexported references, a written reference that has no place or leads to nothing, a written reference with siblings whose target is walked to no mapping, or a tag of a written mapping that cannot be rewritten |
| BundleFaults.FaultlessBundles | scripts/openapi_contract.py:206-245 | a contract without any such place has a bundle |
| BundleFaults.Followed | scripts/openapi_contract.py:169-190 | a successful walk has followed every unexported reference below the value, each to a target not already open |
| BundleFaults.CircleNeverWalks | scripts/openapi_contract.py:174-178 | inside a circle of unexported references the walk never succeeds |
| FenceSafety.TickKeeps | db/schema_contract.py:502-527 | one NOWAIT attempt at a clock keeps the account of what the writer owes each subject, whichever way it ends |
| FenceSafety.FallKeeps | db/schema_contract.py:528-548 | so does the event fallback, also when the preparation closed meanwhile |
| FenceSafety.NothingPending | app/services/retention_activation_db.py:95-139 | while a promoter stands ready no other transaction holds an uncommitted bump or event of its preparation |
| FenceSafety.OneAtATime | app/services/retention_release_promotion.py:489-523 | two operators ready to commit never need a common row |
| FenceSafety.InvKept | db/schema_contract.py:418-553 | every statement of every interleaving of writers and operators keeps lock compatibility and the writers' accounts |
| FenceSafety.CommitCounted | db/schema_contract.py:502-548 | a writer's commit raises the effective revision of each registered subject by the number of its changes that concern the subject |
| FenceSafety.RunCounted | db/README.md:180-206 | over any run that leaves the preparation open and does not extend it, the rise of base revision plus event count is the number of committed changes that concern the subject |
| FenceSafety.ClosedStays | app/services/retention_release_promotion.py:1030-1042 | a promoted or aborted preparation never opens again |
| FenceSafety.CommitPromotes | app/services/retention_release_promotion.py:1013-1020 | the commit of a promotion leaves its preparation, and no other, active, and changes no other preparation, boundary, revision or event |
| FenceSafety.CommitAborts | app/services/retention_release_promotion.py:1030-1046 | the commit of an abort leaves its preparation aborted, which was not active, and changes nothing else |
| FenceSafety.CommitCreates | app/services/retention_release_promotion.py:553-580 | a new preparation is being built, has exactly its targets as subjects, counted from zero, and is the only one not aborted |
| FenceSafety.CommitExtends | app/services/retention_release_promotion.py:500-550 | an extension reopens building under a new version, registers its targets and raises the revision of exactly those whose boundary moves |
| FenceSafety.ActiveStays | app/services/retention_release_promotion.py:1013-1020 | over every run at most one preparation is active, and it stays so |
| FenceSafety.CountsExactly | db/schema_contract.py:453-503 | a change counts for exactly the subjects whose audit sees one of its rows, unless it is ignored |
| FenceSafety.IgnoredExactly | db/schema_contract.py:453-474 | an owner's update of profile, context, pipeline or barrier is ignored exactly when the audit sees no difference and no cursor goes back |
| FenceSafety.UnknownJoined | db/schema_contract.py:479-490 | before a writer ticks clocks for an owner it holds the row of every open preparation its change reaches that does not know the owner |
| FenceSafety.HeldRowStays | db/schema_contract.py:479-490 | while a writer holds a preparation's row, under any interleaving, the preparation is not promoted, aborted or extended |
| FenceSafety.SharedRowStays | app/services/retention_release_promotion.py:900-905 | a transaction that reads the row for share finds it unchanged until it ends |
| FenceSafety.PromotesWhatWasAudited | app/services/retention_activation_db.py:113-147 | what the promoter verified still holds when it commits |
| FenceSafety.PromotionSafe | db/README.md:197-206 | a promotion on a token read for a subject earlier in the run, each subject possibly from a snapshot of its own: no change committed since concerned the subject, and its boundary is the one read |
| FenceSafety.PromotionOfOneAudit | app/services/retention_activation_db.py:113-147 | a promotion on the token of one whole audit finds for every subject of the preparation: registered exactly if it was at the audit, the same boundary, and no change since that concerned it |
| FenceSafety.PromotesTheTokensSubjects | app/services/retention_release_promotion.py:829-880 | the subjects promoted are those of the token, no more and no fewer |
| FenceSafety.UncountedUnseen | db/schema_contract.py:453-474 | a change the trigger does not count leaves the audited part of the sources alone |
| FenceSafety.PromotionKeepsEvidence | app/services/retention_release_promotion.py:776-826 | the sources an audit depended on are, at promotion, what they were at the audit |
| FenceSafety.PromotionHappens | app/services/retention_release_promotion.py:950-1027 | a promotion that takes its locks and finds the audited revisions commits and leaves its preparation active: the promises above are not empty |
| FenceSafety.NoWaitChain | db/schema_contract.py:502-548 | whoever is waited for is an operator and waits for nobody: no deadlock among writers and operators |
| Utf8.DecodeEncode | worker/contract_jobs.py:377-384 | decoding inverts encoding (section 3 of RFC 3629) |
| Utf8.SuffixDecodes | worker/contract_jobs.py:381-384 | a suffix of an encoded text decodes exactly when it starts on a character boundary |
| BatchPlanner.LongestPrefix | worker/contract_jobs.py:399-408 | the binary search ends on a prefix that fits and whose successor was found not to |
| BatchPlanner.PlanBatch | worker/contract_jobs.py:364-414 | each refusal in its case, over budget only where not one character fits and, with monotone budgets, exactly there; otherwise the batch fits, nothing more fits, the cursor moves forward to a boundary, and the slices cover exactly the bytes moved past |
| BatchPlanner.RoomEverywhere | worker/contract_jobs.py:399-410 | where single characters fit, the planner is over budget at no cursor |
| BatchPlanner.SplitIsLongest | worker/contract_jobs.py:396-408 | with monotone budgets a partial slice is the longest that fits |
| BatchPlanner.PlanTiles | worker/contract_jobs.py:364-414 | any sequence of batches covers the history up to the cursor it reaches, without gap or overlap, and its length is bounded |
| BatchPlanner.PlanAll | worker/contract_jobs.py:364-414 | iterating the planner ends; with room for one character it covers every byte |
| BatchPlanner.SplitSegment | worker/contract_jobs.py:335-349 | the fallback planner's halving refuses exactly when none of its ten segments fits |
| BatchPlanner.SmallestSegmentDecides | worker/contract_jobs.py:335-349 | with monotone budgets that is when the segment of at most four bytes does not fit |
| BatchPlanner.PlanSegments | worker/contract_jobs.py:307-361 | the fallback planner refuses exactly when the first message has no room, and otherwise tiles at most 2048 bytes: as many whole small messages as fit, or the largest of its ten segments that fits |
| RetainedItems.MergeRetained | worker/contract_jobs.py:457-502 | the loops over candidates and items compute the merge |
| RetainedItems.BatchesIndependent | worker/contract_jobs.py:457-502 | merging two batches one after the other gives the document, or the refusal, of merging them at once |
| RetainedItems.MergeSorted | worker/contract_jobs.py:502-502 | a merged document is strictly sorted by key |
| RetainedEffects.MergeHolds | worker/contract_jobs.py:455-502 | when the last candidate naming a key sets it, the merged document holds under that key its directive, scope and reference, in force, begun with its message if and only if it is for a conversation |
| RetainedEffects.SetLeaves | worker/contract_jobs.py:483-500 | of every other item a set leaves exactly this: a superseded one is gone, or closed in favour of the new one if it is a legacy one; an active legacy one that says the same is closed; all else stays |
| RetainedEffects.RefusedExactly | worker/contract_jobs.py:461-490 | a merge is refused exactly for its first refused candidate: a correction of a missing item or of another scope or kind, an end without an active conversation preference, or an end before its beginning |
| RetainedEffects.KeysSeparate | worker/contract_jobs.py:104-106 | directives share a key exactly when scope, kind, action, condition and target agree |
| RetainedItems.Untouched | worker/contract_jobs.py:459-460 | an item no candidate names, and that repeats none, is unchanged |
| RetainedItems.OnlySetsAdd | worker/contract_jobs.py:480-501 | a new key comes from a candidate that sets it |
| RetainedItems.EndCloses | worker/contract_jobs.py:462-479 | an accepted end closes its preference exactly when it is said behind the beginning, records where, and changes nothing otherwise |
| RetainedItems.EndsStayBehind | worker/contract_jobs.py:467-478 | over any merge no end lies before the start it closes |
| RetainedItems.EndedStaysEnded | worker/contract_jobs.py:457-502 | an ended preference returns only when it is set again |
| ContractChain.SlicesCover | worker/contract_jobs.py:598-606 | the slices handed from job to job and the current batch cover the messages read from their first byte to the batch's end |
| ContractChain.AdvanceCovers | worker/contract_jobs.py:637-643 | the boundary a job advances to has behind it exactly the messages its batches covered |
| ContractChain.CommitKeeps | worker/contract_jobs.py:763-907 | a commit, restart, fallback or continuation hands on only sound partial payloads |
| ContractChain.StepAdvances | worker/contract_jobs.py:788-907 | the cursor moves exactly when an undisturbed job commits at the end of a message, to a boundary within its target, past exactly the messages covered |
| ContractChain.RunCovers | worker/contract_jobs.py:552-907 | over any run within a generation the advances, one for each such commit, lead from the old cursor to the new one without gap or overlap |
| ContractCommits.CommitAdvances | worker/contract_jobs.py:861-907 | such a commit publishes the merged document, leaves exactly the messages behind the batch to be read, and below the target a new job that can run |
| ContractCommits.CommitSplits | worker/contract_jobs.py:844-860 | a commit inside a message publishes nothing; a job carries the offset and what has been read, and it can run exactly when its key was new or its job has not finished |
| ContractCommits.RestIsLost | worker/contract_jobs.py:844-860 | a run in which an undisturbed commit leaves the cursor below the target and no job that can run |
| ContractCommits.CommitShrinks | worker/contract_jobs.py:833-840 | truncated output publishes nothing and leaves a job in fallback mode |
| ContractCommits.CommitRestarts | worker/contract_jobs.py:815-832 | a disturbed job publishes nothing, and a new one starts from the current cursor exactly when it is below the target |
| ContractCommits.CommitFollowsLineage | worker/contract_jobs.py:835-907 | an undisturbed commit moves cursor and offset as the lineage of ContractLiveness advances |
| ContractLiveness.WindowTiles | worker/contract_jobs.py:590-592 | progress inside the rows read at once is progress in the whole history |
| ContractLiveness.ExecutionProgresses | worker/contract_jobs.py:649-770 | whatever the model answers, with the room its mode needs an execution arrives or leaves the lineage healthy and strictly closer, counting unread bytes, the unused fallback and attempts |
| ContractLiveness.FailuresWait | worker/contract_jobs.py:690-760 | a failed answer is tried again at the same cursor until the last attempt, which goes on without it; output cut off goes to the fallback with the attempts that are left |
| ContractLiveness.LineageArrives | worker/contract_jobs.py:835-907 | with room in both modes no lineage dies of content failures, loses a follow-up to a used key, or runs longer than a bound fixed at its start |
| ContractLiveness.TightArrives | worker/contract_jobs.py:835-907 | when no input holds more than 2048 source bytes, room for one character is enough to arrive within that bound |
| ContractLiveness.FallbackArrivesIff | worker/contract_jobs.py:331-361 | in fallback mode no history and no answers kill a lineage exactly when the fallback planner has room at every cursor |
| ContractLiveness.SegmentRoomyIs | worker/contract_jobs.py:331-361 | with monotone budgets that room means: messages of at most 2048 bytes fit whole, and so does the first segment of four bytes wherever a text is split |
| ContractRefusal.RoomForOneIsNotEnough | worker/contract_jobs.py:593-602 | a monotone budget in which every single character fits, and a fresh lineage that is truncated once and dies |
| CheckpointChain.InvKept | worker/checkpoint_jobs.py:542-580 | publishers that check and insert separately, new messages, edits and resets keep the chain sound |
| CheckpointChain.ChainCovers | worker/checkpoint_jobs.py:346-385 | in every reachable state the baseline-bound checkpoints cover exactly the messages behind the baseline up to the last end |
| CheckpointChain.ChainLinear | app/services/checkpoint_repo.py:122-140 | they form one chain: each names its predecessor, ends later, and shares no message with another |
| CheckpointChain.LaterEndsGetIn | app/services/checkpoint_repo.py:122-140 | a request that names the head as its parent is inserted exactly when its end is later and not occupied |
| CheckpointChain.CheckedGetsIn | app/services/checkpoint_repo.py:122-140 | a request checked just before, the first of a chain included, is inserted behind the head exactly when its end is not occupied |
| CheckpointChain.HeadEndNeverGetsIn | db/schema_contract.py:369-372 | no request with the head's own end is ever inserted |
| CheckpointOverlap.LinearExactly | app/services/checkpoint_repo.py:122-140 | with insert and commit apart, over every run of overlapping publishers the checkpoints stay one chain exactly when each publishing commit still finds the head its insert saw; the chain is then as sound as without overlap |
| CheckpointOverlap.AloneIsQuiet | worker/checkpoint_jobs.py:542-580 | if no insert runs while another publisher's transaction is open, that holds throughout |
| CheckpointOverlap.Forks | app/services/checkpoint_repo.py:122-140 | from the empty state two publishers reach two checkpoints without a parent that share a message |
| CallBudget.StepWithin | worker/checkpoint_jobs.py:731-742 | claims, reservations, crashes, deferrals, pages and fallbacks never enlarge the budget |
| CallBudget.WastedCallsBounded | worker/checkpoint_jobs.py:731-881 | over every run, calls that brought no page stay within the first job's attempts |
| CallBudget.WastedCallsReached | worker/checkpoint_jobs.py:731-742 | and a model that always fails is called exactly that often |
| CallBudget.PagesGoOn | worker/checkpoint_jobs.py:849-881 | when every call brings its page, any number of pages goes through with any budget, and the budget stays whole |
| CallBudget.FallbackGoesOn | worker/checkpoint_jobs.py:783-796 | a fallback goes on with the calls that are left, and a deferral takes none away |
| CallBudget.Execution.BeforeCall | worker/checkpoint_jobs.py:731-742 | the handler reserves at most one call, refuses when none is left, and otherwise does the reservation step |
| CallBudget.Execution.Shrink | worker/checkpoint_jobs.py:783-796 | the output fallback keeps the reservation and passes on the attempts left |
| CallBudget.Execution.NextPage | worker/checkpoint_jobs.py:849-881 | a committed page gives the next job what was available before the call |
| Reverify.Recover | worker/checkpoint_jobs.py:1012-1027 | an item is in the result exactly if it was reviewed, or was answered and its history is absent or active; its value is the reviewed one, else the answered one |
| Reverify.Recheck | worker/checkpoint_jobs.py:1049-1060 | the checking loop accepts exactly when every page still has its fingerprint |
| Reverify.PagesCover | worker/checkpoint_jobs.py:984-995 | contiguous current pages are together all current messages of their range |
| Reverify.CompletedIsCurrent | worker/checkpoint_jobs.py:1028-1096 | a completed re-verification rests on pages that are, when it commits, all messages from the start bound to the last page's end with the reviewed contents; its items are exactly the reviewed ones, unchanged, and those the last finished review answered and history had not closed |
| Reverify.CompletesUndisturbed | worker/checkpoint_jobs.py:984-1096 | when nothing changes meanwhile it completes, with a job for every page |
| Reverify.PublicReverifyNeverCommits | worker/checkpoint_jobs.py:1083-1092 | in every reachable state the insert of a completed public re-verification changes nothing |
| JobLease.InvKept | app/services/jobs.py:367-710 | every statement of consumers, heartbeats and the reaper keeps the row sound |
| JobLease.AppliedOnce | worker/consumer.py:32-42 | over every interleaving the domain effects of a row are committed at most once, exactly when it has succeeded |
| JobLease.StaleChangesOnlyTheChunk | app/services/jobs.py:429-441 | a consumer without the current token changes the row exactly when it freezes another chunk, and then only the chunk |
| JobLease.LostStaysLost | app/services/jobs.py:367-385 | a lost lease never comes back |
| JobLease.PostponedLeavesNothing | worker/consumer.py:127-157 | a deferral raised inside apply_domain leaves no effect; deferring returns the same job with its failure budget, unless its lease ran out meanwhile |
| JobLease.FinishedKeepsAllButTheChunk | app/services/jobs.py:429-497 | a finished row changes exactly by a late freeze of another chunk or the redaction of one, and keeps everything else |
| JobLease.StaleFreeze | worker/mem0_jobs.py:357-368 | a reaped consumer puts its chunk back over its successor's |
| JobLease.ConfirmsUnlessReaped | app/services/jobs.py:447-471 | from claim to confirmation, under any interleaving, a consumer's effects are committed exactly when no reaper found its lease run out and its subject is open; otherwise it changes nothing |
| JobLease.LateSuccess | app/services/jobs.py:447-471 | a holder past its lease may confirm |
| JobLease.RetryGivesBack | app/services/jobs.py:473-485 | a failed execution gives the row back to the next claim exactly while an attempt is left in time, and is dead otherwise |
| JobLease.ReapGivesBack | app/services/jobs.py:808-860 | the reaper takes a running row exactly when its lease has run out, gives it back if an attempt is left in time, and ends what may not be claimed: as cancelled when its time is over, else as dead |
| JobLease.LeaseProtects | app/services/jobs.py:367-400 | a claim or heartbeat keeps the reaper away exactly as long as its lease |
| JobLease.FailsToTheEnd | app/services/jobs.py:473-485 | a row whose executions all fail is claimed exactly as often as it has attempts |
| QueueLoop.Slots.SpawnAll | worker/consumer.py:396-404 | claimed jobs fit the free slots and take one each |
| QueueLoop.Slots.Discard | worker/consumer.py:398-401 | a finished task frees exactly its own slot |
| QueueLoop.SlotsAndDelay | worker/consumer.py:432-479 | tasks in flight never exceed the concurrency, and the back-off stays within its bounds |
| QueueLoop.ClaimTakes | worker/consumer.py:452-462 | a claim takes as many rows as the batch, the free slots and the queue allow |
| QueueLoop.BacksOff | worker/consumer.py:467-476 | over every run the back-off is the base delay doubled for every empty poll slept out since the last claim or wake-up, up to its ceiling |
| QueueLoop.SleepsOut | worker/consumer.py:451-474 | unless it is woken the loop sleeps its whole delay, for the reason it fell asleep |
| QueueLoop.NoLostWake | worker/consumer.py:407-429 | a loop asleep on an empty queue can wake at once, at its fastest delay, when the local jobs that committed follow-ups behind its back have set the event |
| QueueLoop.FullWakesExactly | worker/consumer.py:451-456 | a loop asleep on full slots with one free by now can wake exactly when some job set the event after the loop's last clear |
| QueueLoop.SleepBounded | worker/consumer.py:462-474 | however it fell asleep, the loop claims again after its current delay at the latest |
| QueueLoop.WakesExactly | worker/consumer.py:451-474 | in every reachable state with an unseen follow-up and all local jobs done, the sleeping loop can wake exactly if it fell asleep on an empty queue, or on full slots with the event set after its last clear |
| QueueLoop.LostWakeReached | worker/consumer.py:396-429 | with any concurrency of at least two a run ends asleep on full slots, a slot free, a follow-up claimable, nobody left to set the event, the delay still running |
| QueueLoop.FailedClaimReached | worker/consumer.py:458-466 | after a failed claim the event is set and the loop sleeps on |
| IngestChunks.GreedyChunk | worker/mem0_jobs.py:200-222 | the greedy loop finds the longest sitting, and the query returns its first and last turn |
| IngestChunks.ChunkIsLongestSitting | worker/mem0_jobs.py:200-239 | the window query's chunk is the longest prefix within one date, without a gap over idle, of at most max_turns |
| IngestChunks.CursorMoves | worker/mem0_jobs.py:267-294 | moving the cursor to a chunk's last turn leaves exactly the turns behind it |
| IngestChunks.ChunksTile | worker/mem0_jobs.py:225-239 | repeated chunks take every turn once and in order, and what follows a chunk could not have been part of it |
| IngestChunks.HalvingsAre | worker/mem0_jobs.py:357-368 | a width needs at most n halvings exactly when it is below two to the n |
| IngestChunks.CompleteAnswer | worker/mem0_jobs.py:340-368 | a complete answer after n truncated ones takes the turns up to the n times halved width, and keeps what was extracted |
| IngestChunks.OneTurnSkipped | worker/mem0_jobs.py:369-377 | truncated down to a single turn, without retention, that turn is passed with nothing kept |
| IngestChunks.SurvivesTruncation | worker/mem0_jobs.py:357-377 | with more attempts left than halvings, no answers kill the job |
| IngestChunks.DiesWhenTooWide | worker/mem0_jobs.py:357-377 | otherwise answers that are always cut off do |
| IngestChunks.SafeWidth | app/config.py:193-202 | with eight attempts exactly the chunks spanning fewer than 128 turn numbers are safe |
| IngestChunks.DenseIsSafe | app/config.py:193-202 | chunks of consecutively numbered turns are safe, with at most five halvings |
| IngestChunks.SparseDies | worker/mem0_jobs.py:357-368 | two turns numbered 1 and 129 form one chunk and use up all attempts |
| IngestChunks.RetentionNeverSkips | worker/mem0_jobs.py:369-377 | with retention a turn that is always cut off is never passed |
| DiaryVectors.MutatedKeepsView | scripts/diary_shared_embeddings.py:268-280 | each guarded update leaves the vector a reader sees, and ends the document's candidacy |
| DiaryVectors.CandidateSucceeds | scripts/diary_shared_embeddings.py:229-265 | what the candidate query selects, the locked update carries out |
| DiaryVectors.SeedKeepsReady | scripts/diary_shared_embeddings.py:210-221 | seeding never alters a ready template |
| DiaryVectors.SeedView | scripts/diary_shared_embeddings.py:210-226 | seeding leaves all readers' vectors exactly when no document waits for the template it completes |
| DiaryVectors.SeedMayComplete | scripts/diary_shared_embeddings.py:217-221 | with such a document an answer appears |
| DiaryVectors.ViewMoves | scripts/diary_shared_embeddings.py:210-226 | over any number of steps a reader's answer moves exactly for a waiting document whose template got completed, and to the vector of an entry for its text |
| DiaryVectors.Page | scripts/diary_shared_embeddings.py:229-240 | a page is the first candidates behind the cursor, and says when there are no more |
| DiaryVectors.Store.SeedCanonical | scripts/diary_shared_embeddings.py:175-226 | true only when the template holds the reviewed vector; no ready template changes, and no answer but those of documents that waited for it |
| DiaryVectors.Store.MutateOne | scripts/diary_shared_embeddings.py:243-280 | changes exactly the one document as its guard allows, and no reader's vector |
| DiaryVectors.Store.ApplyEntry | scripts/diary_shared_embeddings.py:295-312 | paging through an entry changes no reader's vector and leaves no candidate unless the batches ran out |
| DiaryVectors.Store.ApplyPlan | scripts/diary_shared_embeddings.py:283-323 | prune and restore change no reader's vector; link changes one exactly where a document waited for a template that got completed, and then to an entry's vector; every document is left alone or changed as the plan says, and as many as reported; unless more is reported, every offered template is there, and every candidate whose template holds the vector has been changed; the wrong mode is refused exactly and rollback readiness reported exactly |
| ResidualSweep.CountSteps | worker/privacy_sweep_jobs.py:65-73 | the ledger count refines the counter of trailing empty sweeps |
| ResidualSweep.SweepKeeps | worker/privacy_sweep_jobs.py:105-132 | a sweep with a fresh count closes exactly on the second empty sweep in a row |
| ResidualSweep.ClosedAfterTwo | worker/privacy_sweep_jobs.py:38-39 | over every sequential run a deletion counts as finished only after two consecutive empty sweeps of the same operation |
| ResidualSweep.SweptClean | worker/privacy_sweep_jobs.py:105-132 | sweeps in a row take away a whole batch each, and a deletion is closed with the second one behind the last batch, not before |
| ResidualSweep.OverlapClosesRightly | worker/privacy_sweep_jobs.py:105-146 | over every run of overlapping handlers, retries and old operations included, a close follows two empty sweeps in a row exactly when the ledger counted at the close plus this sweep makes two |
| ResidualSweep.OverlapClosesEarly | worker/privacy_sweep_jobs.py:135-146 | a run of three overlapping handlers in which one closes after a single empty sweep |
| ResidualSweep.Sweeper.SweepSubject | worker/privacy_sweep_jobs.py:105-132 | one sweep of one account is the modelled step, and the vectors it reports are the ones that are gone |
| ResidualSweep.Sweeper.PromoteOrphans | worker/privacy_sweep_jobs.py:51-63 | active barriers of vanished accounts get a new deletion and epoch, and no other barrier changes |
| ResidualSweep.Sweeper.Subjects | worker/privacy_sweep_jobs.py:65-79 | each deletion in progress is listed once, with its current count, up to the limit |
| ResidualSweep.Sweeper.Handle | worker/privacy_sweep_jobs.py:135-166 | a run on its own skips nothing and keeps ledger and sweeps in agreement |

## Left out

- BundleMeaning.MeaningPreserved: paths into the values of a discriminator mapping are excluded, because those strings are rewritten rather than followed; BundleMeaning.TagMeansTarget says what following them gives.
- BundleMeaning.MeaningPreserved: needs component entries without siblings and pointer-safe component names, no reference object under a key "$ref", and no "$ref" in the root mapping; BundleMeaning.SiblingLeaks and BundleClosed.NestedRefLeaks show what becomes of the first and the third.
- BundleMeaning.TagMeansTarget: the file is the one the tag is read against, which BundleMeaning.WrittenTags and InlinedTags determine for mappings whose tags are plain strings.
- BundleClosed.WalkClosed: needs documents without a reference object under a key "$ref", as BundleClosed.NestedRefLeaks explains.
- BundleClosed.BundleIsClosed: needs the same, and no "$ref" in the root mapping, which would make the whole document a reference.
- JsonPointer.PointerRoundTrip: needs a pointer without a percent sign, because the fragment is unquoted first; JsonPointer.QuotedRoundTrip quotes it.
- Bundler: the order of keys in a mapping, so when several faults exist the model keeps them all and does not say which one is raised; percent-decoding is modelled for ASCII escapes; YAML parsing, lenient integer tokens and the closing schema validation are not part of this model.
- Fence: the trigger is a set of steps of a state machine instead of a procedure, because the promises are about interleavings; the order in which an operator takes its NOWAIT locks is left open, which only adds runs.
- Fence: locks that foreign keys take on profiles, source row locks between writers, statement and lock timeouts, and the tail and artifact checks of the final activation.
- FenceSafety.PromotionKeepsEvidence: takes as given that each committed change applies to the row it says it changed, which row locks between writers provide.
- ContractChain: the key of a requested job is taken as new; preparation bindings, drafts, document contents and publication; documents are compared by identity.
- ContractLiveness.FallbackArrivesIff: speaks of all healthy fallback lineages; which of them a fresh lineage reaches depends on the whole budget function, and ContractLiveness.TightArrives gives a budget under which it reaches none.
- ContractLiveness.LineageArrives: needs the fallback planner's room, without which ContractLiveness.FallbackArrivesIff shows lineages that die.
- BatchPlanner.PlanBatch: without monotone budgets the binary search may miss a prefix that fits, so that refusing is exact only with them.
- ContractLiveness: a lineage with model calls; jobs that skip the model after the redo limit, lost workers and concurrent jobs are covered by ContractChain only.
- RetainedItems: parsing and validation of directives, and rendering.
- CheckpointChain.InvKept: an insert and its commit are one step; CheckpointOverlap.LinearExactly says when the invariant holds with them apart.
- CheckpointChain.ChainCovers: the same.
- CheckpointChain.ChainLinear: the same.
- CheckpointOverlap: a publisher whose end another open transaction has taken is modelled as publishing nothing when it commits, instead of waiting for that transaction.
- CheckpointChain: message ids of one user are taken to arrive in ascending order, and plans to end at their last message as the planner makes them (`app/services/checkpoint.py:376-386`).
- CheckpointChain: earlier summary versions, validation of summary states, and the wait for facts and preferences.
- CallBudget: what a page summarises, and the output manifests.
- JobLease: of the payload only the frozen chunk is modelled; availability times, telemetry and alerts; one row is modelled, and rows do not interact.
- QueueLoop: which rows a claim returns, and the turns of the event loop: between a task setting the event and its done callback anything may happen, which only adds runs.
- IngestChunks: one consumer at a time; a stale one can put a wider chunk back (JobLease.StaleFreeze), and the count of halvings starts over.
- IngestChunks: extraction, staging and registration of memories.
- DiaryVectors: the tool runs alone between its own transactions, so no candidate is ever skipped after its lock; which texts are approved, and how digests are computed, are inputs.
- ResidualSweep: the order in which old deletions are taken first, and the count of stuck deletions.
- Prompts, embeddings, routers, settings, reports and deployment scripts.
