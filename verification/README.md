# A verified model of the Shin bucket deployment

This project models the parts of the repository where a mistake would be hard to see: the streaming
marker replacement, the decisions about which objects may be deleted and which CloudFront paths are
invalidated, the crash-safe evidence ledgers, the worker pools, the bounded diagnostics, and the
encodings that identities, tags and commands rest on. Everything is proved for all inputs, all runs
and all interleavings.

Code that updates state in place is modelled by classes, methods and loops; code made of expressions
is modelled by functions and lemmas. A loop or a method is proved against a specification function
or predicate, and what the source promises is proved about that specification.

| file | what it models |
|---|---|
| `Basics.dfy` | optional values, bytes, saturating sums, UTF-8 lengths |
| `ReplacementSpec.dfy` | what marker replacement means, and when a match found in a window is final |
| `Replacement.dfy` | the streaming engine: chunks, bounded tail, coalescing, output limit |
| `Namespace.dfy` | namespaces, ownership tags and the deletion guard |
| `Lifecycle.dfy` | what an update decides about the previous destination |
| `Listing.dfy` | listing pages, chunked deletion with retries, paginated deletion |
| `Destination.dfy` | stale objects, planning, stale cleanup, guarded deletion |
| `Invalidation.dfy` | path validation, merging, preflight, which lists an outcome sends |
| `Provider.dfy` | one custom resource request from the event to the callback |
| `ResumeLedger.dfy` | the write-ahead manifest and its two ledgers, with crashes between writes |
| `ScenarioPool.dfy` | the scenario worker pool |
| `BenchmarkPool.dfy` | the benchmark worker pool and the grouping of samples |
| `Diagnostics.dfy` | bounded merging of failure diagnostics and the collector's checks |
| `SourceOrder.dfy` | last-occurrence ordering of sources |
| `Identity.dfy` | length-prefixed identities and the cataloged asset identity |
| `ShellQuoting.dfy` | the printed cleanup commands and a reader for them |
| `Sanitizer.dfy` | the diagnostic sanitizer |
| `SourceWindow.dfy` | the source window arithmetic |

## Findings

- A guarded cleanup whose exclusion is the root namespace (`Some("")`) passes the guard for every
  tag, because the root contains every owner, while the deletion then excludes nothing.
  `Namespace.PassedGuardIsSafe` gives the exact condition under which a passed guard is safe,
  `Namespace.RootExclusionIsUnsafe` a concrete bucket, and `Lifecycle.PlannedExclusionIsProper`
  shows that no planned cleanup has such an exclusion.
- The canonical namespace of the prefix `/` is the bucket root, but its listing prefix is `/`;
  `Namespace.ListedWithinCanonical` says that this is the only prefix where the two differ.
- The preflight validates the current and the previous path list alone even where only the merged
  list can be sent, namely when an update keeps its distribution and changes previous content. It
  rejects a request none of whose outcomes could send an unacceptable list exactly when merging
  repairs one of the two lists (`Invalidation.PreflightIsOverstrictExactlyWhen`). Sixteen times the
  path `/*` as the current list (`Invalidation.CurrentListRejectedInVain`) or as the previous one
  (`Invalidation.PreviousListRejectedInVain`) is such a request.
- When a crash hits between the two ledger writes, reopening records the older run ledger as
  current, and the state then passes the check before publication with the new samples but without
  their run records. `ResumeLedger.CrashThenReopen` says for every crash point whether the reopened
  state can be published and what it holds, `ResumeLedger.PublishableWithoutRunRecord` gives an
  instance on empty files, and `ResumeLedger.RecoveryConverges` shows that persisting the same
  records again restores the run records.
- The provider counts in 64 bits, the collector accepts safe integers only. Coherent statistics are
  accepted exactly when the wire attempts, the waits and the numbers of every group are safe
  (`Diagnostics.ValidIsAccepted`); with 2^53 failed attempts they are rejected even without a group
  (`Diagnostics.UnsafeAttemptsAreRejected`).

- The derived source window is not monotone in the memory: beyond 512 MiB of available memory 384 MiB
  are taken off, so a little more memory can give a much smaller window.
  `SourceWindow.WindowFallsExactlyWhen` is the exact condition, `SourceWindow.MoreMemorySmallerWindow`
  a budget that grows from 800 to 896 MiB while the window falls from 512 to 224 MiB.

## Model

| member | source | states |
|---|---|---|
| ReplacementSpec.LongestStands | rust/src/replace.rs:310-333 | at every position where a marker stands there is a longest one, so the whole-input reference is defined everywhere |
| ReplacementSpec.CopyStep | rust/src/replace.rs:115-139 | copying a stretch of decided positions in front of the next match is a step of the whole-input reference, although the rest of the input is unknown |
| ReplacementSpec.SameChoice | rust/src/replace.rs:125-144 | at a decided match the leftmost-longest search and the reference choose the same marker |
| ReplacementSpec.ReplaceStep | rust/src/replace.rs:141-145 | replacing a decided match is a step of the reference; replacement text is not scanned again |
| Replacement.MarkerReplacements.constructor | rust/src/replace.rs:44-71 | whatever order the hash map yields, the patterns are exactly its non-empty markers, each with its replacement, and the length limit is that of a longest one |
| Replacement.MarkerReplacements.Find | rust/src/replace.rs:58-60 | the match found is the leftmost at or behind the start, and the longest there; none is found only if none exists |
| Replacement.OutputAccounting.Write | rust/src/replace.rs:165-202 | bytes are accepted exactly when they fit the limit without overflow; accepted bytes are digested and reach the sink or stay staged, in order; staging stays below 8 KiB |
| Replacement.OutputAccounting.FlushStaging | rust/src/replace.rs:204-210 | what was staged reaches the sink, or the sink failed with a prefix of it |
| Replacement.MarkerReplacements.EmitNext | rust/src/replace.rs:124-146 | one round moves the cursor forward and writes exactly what the reference puts between the old and the new cursor |
| Replacement.MarkerReplacements.EmitStable | rust/src/replace.rs:108-152 | everything decided is emitted as the reference has it, and what stays pending is shorter than the longest pattern, or empty at the end of the input |
| Replacement.MarkerReplacements.Finish | rust/src/replace.rs:92-99 | at the end of the input the run completes with the whole reference output, its length and its digested bytes, or says why not |
| Replacement.MarkerReplacements.Accept | rust/src/replace.rs:102-104 | after any chunk the emitted bytes are the reference up to the tail that stays pending |
| Replacement.MarkerReplacements.ReplaceStream | rust/src/replace.rs:73-106 | for every input, marker map and split into reads: a completed run delivered, counted and digested exactly the reference output; without faults it completes exactly when that output fits the limit; an aborted run delivered a prefix of it; the pending buffer never exceeds one chunk and one pattern less a byte |
| Replacement.Sink.Mirror | rust/src/s3/archive/entry.rs:826-845 | however the output is split into writes, the spool holds all of it exactly while it fits, and no write fails |
| Replacement.PlanThenUpload | rust/src/s3/archive/entry.rs:777-880 | with the capped spool as the sink of the planning pass: planning and upload of one entry agree on length and digest, the upload delivers exactly those bytes, the spool holds them exactly when they fit, and planning fails only for its input or the output limit |
| Namespace.KeysOfPrefix | rust/src/namespace.rs:32-57 | character by character: a key belongs to a prefix exactly when it starts with it and the prefix ends in a slash or a slash follows it; only the empty prefix, and canonically a single slash, denotes every key |
| Namespace.SiblingsAreDisjoint | rust/src/namespace.rs:63-89 | a prefix that goes on with anything but a slash denotes a disjoint namespace |
| Namespace.RelationIsExact | rust/src/namespace.rs:76-89 | the relation of two prefixes is equality, strict containment or disjointness of the key sets they canonically denote |
| Namespace.ContainmentIsExact | rust/src/namespace.rs:66-68 | one namespace contains another exactly when every possible key of the other is one of its keys |
| Namespace.OverlapIsExact | rust/src/namespace.rs:72-74 | two namespaces overlap exactly when some key lies in both |
| Namespace.ListedWithinCanonical | rust/src/namespace.rs:32-57 | the listed keys of a prefix lie in its canonical namespace, and are all of it unless the prefix is a single slash |
| Namespace.RSplitOnce | rust/src/namespace.rs:131-135 | the split is at the last colon, and there is none exactly when there is no colon |
| Namespace.TagClaimsTheNamespace | src/shin-bucket-deployment.ts:1057-1059 | the tag has the documented text, and the keys that it claims are those of the canonical namespace of the deployment's prefix |
| Namespace.ParsedTagIsExact | rust/src/namespace.rs:125-136 | a tag is read as prefix and owner exactly when it is the fixed base, the prefix, if any, and a non-empty owner id without a colon, joined by colons |
| Namespace.OwnerTagRoundTrip | src/shin-bucket-deployment.ts:1057-1059 | the provider parses the construct's tag back to the same prefix and owner id, for every prefix, exactly when the id is non-empty and has no colon |
| Namespace.OwnerTagIsInjective | rust/src/namespace.rs:125-136 | different prefixes or owners have different tags |
| Namespace.PrefixLimitIsTight | src/validation.ts:40-46 | with a 16-unit owner id the tag key fits 128 UTF-16 units exactly when the prefix has at most 94 |
| Namespace.CleanupIsExact | rust/src/s3/destination.rs:150-201 | a cleanup covers exactly the keys that lie under its prefix and not under a non-empty exclusion, character by character |
| Namespace.TagIsDecided | rust/src/namespace.rs:96-123 | one tag endangers some deletable key exactly when the overlap test reports it and the exclusion does not spare everything |
| Namespace.GuardIsExact | rust/src/namespace.rs:144-155 | over all tags and keys the guard retains exactly when some deletable key belongs to another owner, unless nothing would be deleted at all |
| Namespace.PassedGuardIsSafe | rust/src/s3/destination.rs:150-201 | a cleanup that passes the guard deletes no key of another owner exactly when its exclusion is not the root or the guard would also pass without it |
| Namespace.RootExclusionIsUnsafe | rust/src/namespace.rs:115-120 | a bucket, a tag and a key for which excluding the root passes the guard and the deletion hits another owner |
| Lifecycle.DeletionIsAuthorized | rust/src/lifecycle.rs:37-79 | previous objects are planned for deletion exactly when the destination moved to other keys, the deletion was authorized for that bucket and the owner is the same |
| Lifecycle.StrategyIsExact | rust/src/lifecycle.rs:37-79 | a planned deletion is left to the stale cleanup exactly when the previous namespace is a strict part of the current one, and otherwise covers everything listed under the previous prefix but current keys |
| Lifecycle.RetentionIsExact | rust/src/lifecycle.rs:37-79 | each reason for retaining the previous destination is given exactly in its case |
| Lifecycle.DestinationOverlapIsExact | rust/src/lifecycle.rs:90-99 | destinations overlap exactly when they share a bucket and a possible key |
| Lifecycle.PlannedExclusionIsProper | rust/src/lifecycle.rs:52-54 | a planned whole-namespace deletion never excludes the root |
| Lifecycle.PreviousCleanupSparesCurrent | rust/src/lifecycle.rs:48-61 | in the same bucket the planned deletion hits only keys of the previous namespace and none of the current one |
| Lifecycle.PlannedCleanupIsSafe | rust/src/cloudformation.rs:631-664 | a planned deletion that passes the guard deletes no key of another owner |
| Lifecycle.WithinCurrentIsProper | rust/src/lifecycle.rs:81-88 | a previous namespace inside the current one is listed completely and is a strict part of it |
| Listing.Bucket.List | rust/src/s3/destination.rs:646-705 | a page is ascending, holds only keys under the prefix behind the cursor that no deletion under way has removed, and only a truncated page leaves keys out, all behind its last key |
| Listing.DeleteKeyChunk | rust/src/s3/destination.rs:779-932 | with any partial failures and retries, success means that exactly the chunk is gone and counted once, and failure that only keys of the chunk are gone and that some request failed or came too late |
| Listing.DeleteKeys | rust/src/s3/destination.rs:749-777 | the same for any list, in requests of at most a thousand keys |
| Listing.Pager.NextPage | rust/src/s3/destination.rs:646-705 | the cursor is the last key of the page, and the pager ends with the last page |
| Listing.DeleteAndList | rust/src/s3/destination.rs:565-583 | deleting a page while the next one is listed gives the same next page whatever part of the deletion the listing sees |
| Listing.PageStep | rust/src/s3/destination.rs:553-600 | deleting what a page selects takes the deletion exactly as far as the page's cursor |
| Listing.DeleteListed | rust/src/s3/destination.rs:533-601 | success deletes and counts exactly the selected keys of the bucket, whatever the pages, retries and interleavings; failure deletes only such keys and needs a failed or late request |
| Destination.PlannedKeysAreKept | rust/src/s3/destination.rs:1159-1171 | a key that the deployment planned is never stale, in neither leg |
| Destination.StaleKeysAreOurs | rust/src/s3/destination.rs:300-330 | no authorized stale key belongs to another owner |
| Destination.StaleIsObsolete | rust/src/s3/destination.rs:1159-1171 | the stale keys of the authorized legs are, written out, the unplanned ones below the prefix that the filter admits outside the protected namespace, or that lie in the previous namespace, where no competing owner forbids it |
| Destination.DeletionCandidates.Retain | rust/src/s3/destination.rs:62-80 | all candidates are retained, in order, exactly while they fit 4 MiB |
| Destination.Record | rust/src/s3/destination.rs:227-261 | each listed key is recorded, or offered as stale in exactly the legs whose standalone predicate selects it |
| Destination.PlanDestination | rust/src/s3/destination.rs:203-271 | planning knows exactly the planned objects that exist and exactly the stale keys of each leg |
| Destination.DeleteBothLegs | rust/src/s3/destination.rs:368-468 | deleting the retained keys and listing the namespace again delete the same keys |
| Destination.DeleteStaleObjects | rust/src/s3/destination.rs:273-365 | exactly the stale keys of the authorized legs are deleted, however many candidates there were |
| Destination.DeployTo | rust/src/s3.rs:143-252 | a deployment loses only obsolete keys below its prefix and adds only planned ones, so without a previous leg it keeps whatever the filter rejects; a successful one leaves every planned key and no obsolete one; nothing is lost before all planned objects are there; and it fails only behind a fault |
| Destination.GuardedDeleteNamespace | rust/src/s3/destination.rs:150-201 | a competing owner's tag retains everything; otherwise exactly the namespace without the exclusion is deleted and counted |
| Invalidation.ValidateInvalidationPaths | rust/src/cloudfront.rs:170-211 | a list is accepted exactly when it meets the documented limits, with its length as quantity, and otherwise the first broken rule is reported |
| Invalidation.ValidationIsExact | rust/src/cloudfront.rs:170-229 | the specification of the checks agrees with the documented limits |
| Invalidation.LimitsAreDocumented | rust/src/cloudfront.rs:170-229 | the limits written out with their numbers and characters: accepted are exactly the non-empty lists of at most 3000 paths without and 15 with a trailing wildcard, each with a leading slash, at most 4000 characters, no control character and no tilde in either form |
| Invalidation.ReportedProblemIsReal | rust/src/cloudfront.rs:187-210 | a reported path has the reported problem, and no path before it has any |
| Invalidation.MergeDistributionPaths | rust/src/cloudformation.rs:817-825 | merging keeps the first occurrence of every path in order |
| Invalidation.MergeCovers | rust/src/cloudformation.rs:817-825 | the merged list has exactly the paths of both lists, each once |
| Invalidation.MergeKeepsOrder | rust/src/cloudformation.rs:817-825 | the merged paths are first occurrences, at increasing positions |
| Invalidation.MergeCounts | rust/src/cloudformation.rs:817-825 | merging never exceeds the two lists together in wildcard or in other paths |
| Invalidation.PreflightCoversEveryOutcome | rust/src/cloudformation.rs:503-546 | when the preflight accepts, every list that any outcome of the request sends is acceptable |
| Invalidation.PreflightIsOverstrictExactlyWhen | rust/src/cloudformation.rs:503-546 | for every request: the preflight rejects although no possible outcome sends an unacceptable list exactly when the distribution stays the same, previous content may change, the merged list is acceptable, the current list is never sent alone or is acceptable, and one of the two lists is not |
| Invalidation.CurrentListRejectedInVain | rust/src/cloudformation.rs:508-513 | an update in place whose current list repeats one wildcard sixteen times is rejected, and only the acceptable merged list would be sent |
| Invalidation.PreviousListRejectedInVain | rust/src/cloudformation.rs:532-536 | the same with the sixteen wildcards in the previous list |
| Provider.ScriptIsExact | rust/src/cloudformation.rs:557-774 | which steps a request calls for, in terms of its fields and of key sets, and which invalidations with which paths in which distribution |
| Provider.ScriptIsOrdered | rust/src/cloudformation.rs:557-774 | in every run the deployment comes before the previous cleanup, all deletions before any invalidation, both creations before the wait, nothing twice, and two invalidations go to different distributions |
| Provider.PreviousCleanupIsEarned | rust/src/cloudformation.rs:631-664 | the previous namespace is deleted only by an authorized update of the same owner, right behind its deployment |
| Provider.JustifiedIsOurs | rust/src/cloudformation.rs:591-664 | no deletion that a request can justify hits a key of another owner |
| Provider.JustifiedSparesPlanned | rust/src/cloudformation.rs:620-664 | no deletion that a create or update can justify hits a planned key |
| Provider.UnauthorizedPreviousIsKept | rust/src/cloudformation.rs:573-589 | without a planned deletion no key of the previous namespace is deleted, except where that namespace is or contains the current one |
| Provider.Execution.InvalidateDistributions | rust/src/cloudformation.rs:688-774 | the attempted invalidations and waits are a prefix of those the outcome calls for, and all of them on success |
| Provider.LossChangesContent | rust/src/cloudformation.rs:703-706 | an update that deleted a key of the previous namespace for any of its reasons counts as having changed previous content |
| Provider.ChangedPreviousIsInvalidated | rust/src/cloudformation.rs:708-752 | once previous content changed, one attempted invalidation covers all previous paths in the previous distribution, if that is the current one or the request names it |
| Provider.CurrentIsInvalidated | rust/src/cloudformation.rs:733-757 | one attempted invalidation covers all current paths, unless a delete deleted nothing |
| Provider.Execution.Create | rust/src/cloudfront.rs:41-100 | the creation is refused for its paths exactly when they break the documented limits |
| Provider.Execution.CleanPreviousDestination | rust/src/cloudformation.rs:631-671 | every lost key is justified, the deployed objects stay, the cleanup is reported exactly when it deleted something, and after success nothing that the plan deletes is left unless a competing owner's tag forbade it |
| Provider.Execution.CompletedHasNoStale | rust/src/cloudformation.rs:576-589 | after a successful deployment every planned object is there, an inner previous namespace that may be deleted holds nothing unplanned, and with stale deletion nothing unplanned that the filter admits is left, but in an inner previous namespace |
| Provider.Execution.ChangeDestinations | rust/src/cloudformation.rs:557-671 | after success both destinations are as the plan wants them, and the outcome tells what was lost; a failure needs a fault |
| Provider.Execution.ProcessRequestInner | rust/src/cloudformation.rs:557-685 | with any step failing or cut off: the attempted steps are a prefix of the script, all of it on success, which only a fault prevents; every lost key is justified; after success everything planned is there and everything to be deleted is gone, the previous cleanup is reported exactly when a key it covers was lost, and lost previous keys and changed current keys had their paths invalidated |
| Provider.Execution.HandleEvent | rust/src/cloudformation.rs:128-244 | exactly one callback is attempted if there is a valid address, and else none; a decoded, parsed request that passes the preflight reports success unless something failed; success is reported only when the whole script ran, the destinations are as planned and the paths of everything that was lost were invalidated; no lost key belongs to another owner; a rejected preflight changes no object |
| ResumeLedger.Preview | benchmarks/src/persistence.ts:75-104 | the next contents replace the rows with the records' keys, and are refused exactly when a retained row is malformed |
| ResumeLedger.UpsertIsExact | benchmarks/src/persistence.ts:75-104 | the next contents are the old rows whose key is no record's key, in their old order, and behind them the records in theirs |
| ResumeLedger.UpsertIsIdempotent | benchmarks/src/persistence.ts:75-146 | persisting the same records again changes nothing |
| ResumeLedger.Session.Persist | benchmarks/src/resume.ts:163-199 | with a crash before any write: the sample ledger is the before-image or the after-image, the run ledger is never ahead of it, the state is recoverable, a crash leaves the digests of both after-images pending, and until the next reopening publication is possible exactly when the persist completed |
| ResumeLedger.OpenSession | benchmarks/src/resume.ts:97-154 | reopening rejects exactly a foreign identity, destination or ledger, or rows of the run without a manifest; it never touches a ledger; its manifest is the old one, promoted exactly when the sample ledger holds the pending image; it leaves a session that can persist exactly when the state was recoverable, and a publishable state exactly when the run began clean and no write was pending or the pending image was there |
| ResumeLedger.CrashThenReopen | benchmarks/src/resume.ts:126-199 | after a crash at any write and a reopening, which is never rejected, the state is publishable unless only the pending manifest was written; a crash between the ledgers makes it publishable with the new samples and the old run ledger |
| ResumeLedger.PublishableWithoutRunRecord | benchmarks/src/resume.ts:258-278 | on empty files such a history ends in a publishable sample without a run record |
| ResumeLedger.Resume | benchmarks/src/resume.ts:97-199 | over any history of crashed and completed persists and restarts nothing is ever rejected, and the ledgers hold exactly what the finished writes put there |
| ResumeLedger.OnlyRecordedImagesAreAccepted | benchmarks/src/resume.ts:113-125 | with an injective digest the sample ledger is accepted exactly when it is the recorded or the pending image |
| ResumeLedger.RecoveryConverges | benchmarks/src/resume.ts:172-198 | persisting again what a crash interrupted ends where an uninterrupted persist ends |
| ScenarioPool.EveryInterleaving | scenarios/execute.ts:109-220 | for every interleaving: there are as many workers as the plan allows and groups need, groups are claimed once and in order, runs start in order and only behind the success of the one before, no process starts behind an abort, and the recorded cleanup commands are those of the claimed groups |
| ScenarioPool.SettledIsExplained | scenarios/execute.ts:134-189 | for every interleaving a run settles with 0 only if its command and its verifier, if it has one, ended with 0, and otherwise with the exit code of its last process, with 1 because something was not prepared, or with 130 because an abort kept the verifier from starting |
| ScenarioPool.EveryFailureSettles | scenarios/execute.ts:161-216 | when the workers are done, every non-zero exit code of a process is the status of its run |
| ScenarioPool.ReportsAreRecorded | scenarios/execute.ts:111-189 | each step records the exit code it is given, what was not prepared, and which process it starts or holds back |
| ScenarioPool.StatusIsFirstFailure | scenarios/execute.ts:205-228 | without an external abort the result is the first non-zero run status, and 0 exactly when every run of every group passed |
| ScenarioPool.ExternalAbortDecides | scenarios/execute.ts:100-107 | an external abort before or during the execution makes the status 130 |
| ScenarioPool.EveryStepCounts | scenarios/execute.ts:191-220 | every step of a worker or a process leaves strictly less to do, so no execution goes on for ever |
| ScenarioPool.SomethingCanMove | scenarios/execute.ts:191-223 | until all workers have left, one of them or a process can go on |
| ScenarioPool.NextKeeps | scenarios/execute.ts:191-220 | every atomic step keeps the shared variables in agreement with the history |
| ScenarioPool.AfterIsGood | scenarios/execute.ts:60-64 | the invariant holds after every schedule |
| ScenarioPool.Pool.Claim | scenarios/execute.ts:194-203 | the next group index, the worker and the cleanup commands move as specified |
| ScenarioPool.Pool.StartRun | scenarios/execute.ts:134-161 | an aborted pool starts nothing, an unprepared run fails with status 1, and otherwise the command starts |
| ScenarioPool.Pool.ReturnFromCommand | scenarios/execute.ts:161-189 | the verifier is started only behind a successful command and before any abort |
| ScenarioPool.Pool.SettleRun | scenarios/execute.ts:209-216 | the first failure is recorded and aborts the others |
| ScenarioPool.Pool.Execute | scenarios/execute.ts:222-228 | the state and the status after any schedule are the specified ones |
| BenchmarkPool.GroupRunsByMemoryConfiguration | benchmarks/src/run-assets-comparison.ts:194-205 | there is one non-empty group for each stack shape, in the order of first occurrence, with the samples of that shape in planned order |
| BenchmarkPool.GroupsPartition | benchmarks/src/run-assets-comparison.ts:194-205 | every sample is in the group of its shape as often as planned, and in no other group |
| BenchmarkPool.EveryInterleaving | benchmarks/src/run-assets-comparison.ts:147-188 | for every interleaving the stacks of a group start in order and at most once, none of them behind a cap, a failure or an abort, and all have started and passed when the workers end without any of these |
| BenchmarkPool.EverySampleRunsOnce | benchmarks/src/run-assets-comparison.ts:147-205 | for every interleaving each group's started samples are a prefix of the group and no sample is started more often than planned; when the workers end without a stop, each group was run completely in order and every planned sample exactly as often as planned |
| BenchmarkPool.ResultIsExact | benchmarks/src/run-assets-comparison.ts:174-188 | a failure is thrown exactly when one happened, a cap is reported exactly when one was reached without a failure, and without failure, cap and abort everything was run |
| BenchmarkPool.ReportsAreRecorded | benchmarks/src/run-assets-comparison.ts:163-181 | a reached cap, a changed source and the error of a stack are recorded each as what it is, and a stack starts only in their absence |
| BenchmarkPool.EveryStepCounts | benchmarks/src/run-assets-comparison.ts:159-183 | every step of a worker leaves strictly less to do, so no execution goes on for ever |
| BenchmarkPool.SomethingCanMove | benchmarks/src/run-assets-comparison.ts:159-186 | until all workers have left, one of them can go on |
| BenchmarkPool.NextKeeps | benchmarks/src/run-assets-comparison.ts:159-183 | every atomic step keeps the shared variables in agreement with the history |
| BenchmarkPool.Pool.TakeGroup | benchmarks/src/run-assets-comparison.ts:161-162 | the shared queue gives each group to one worker |
| BenchmarkPool.Pool.StartSample | benchmarks/src/run-assets-comparison.ts:163-168 | a stop or a reached cap ends the worker before the sample |
| BenchmarkPool.Pool.SourceWasChecked | benchmarks/src/run-assets-comparison.ts:169-172 | a stack starts only if the source is unchanged and nothing has stopped the pool meanwhile |
| BenchmarkPool.Pool.StackEnded | benchmarks/src/run-assets-comparison.ts:172-180 | an error sets the cap flag or the failure and ends the worker |
| Diagnostics.MergedRangeIsSound | rust/src/diagnostics.rs:1273-1279 | merging keeps min * count <= total <= max * count unless the count or the total has saturated |
| Diagnostics.MergedStateIsSound | rust/src/diagnostics.rs:1310-1317 | merging two groups of one signature keeps every check of the collector but the safe-integer one |
| Diagnostics.SoundIsAccepted | benchmarks/src/provider-summary.ts:596-746 | a sound group is accepted by the collector exactly when its numbers are safe integers |
| Diagnostics.MergeStatesBounded | rust/src/diagnostics.rs:1252-1271 | there are at most 32 groups, with pairwise distinct signatures |
| Diagnostics.MergeStatesConserves | rust/src/diagnostics.rs:1252-1271 | group counts and overflow together keep every failure while the sums fit 64 bits |
| Diagnostics.MergeStatesExtends | rust/src/diagnostics.rs:1258-1268 | groups keep their place and what they counted, and failures overflow only when all groups are taken |
| Diagnostics.GroupsSummarize | rust/src/diagnostics.rs:1252-1320 | whatever was merged: the count and all fourteen ranges of a group are those of all failures with its signature, with attained minimum and maximum and the capped sum, and a failure has a group unless 32 others are taken |
| Diagnostics.MergeCountsBounded | rust/src/diagnostics.rs:1233-1250 | there are at most 31 labels besides Other |
| Diagnostics.MergeCountsConserves | rust/src/diagnostics.rs:1233-1250 | label totals are conserved while they fit 64 bits |
| Diagnostics.LabelsAreExact | rust/src/diagnostics.rs:1233-1250 | every label but Other counted exactly its own entries, and one is left out only when 31 others were taken |
| Diagnostics.MergeCountsLabels | rust/src/diagnostics.rs:1233-1250 | merging brings in no label that the collector's alphabet refuses |
| Diagnostics.MergeDiagnosticCounts | rust/src/diagnostics.rs:1233-1250 | the loop computes the specified label counts |
| Diagnostics.MergeFailureStates | rust/src/diagnostics.rs:1252-1271 | the loop computes the specified groups and overflow |
| Diagnostics.MergeLabels | rust/src/diagnostics.rs:1233-1250 | merged labels stay bounded, keep what they counted and lose nothing while the totals fit 64 bits |
| Diagnostics.MergeGroups | rust/src/diagnostics.rs:991-995 | merged groups stay bounded, distinct and sound, and groups and overflow lose nothing while the sums fit 64 bits |
| Diagnostics.DeploymentPutStats.AddPutStats | rust/src/diagnostics.rs:967-997 | after any coherent reports the bounds, the conservation and the soundness of all groups hold, and the breakdowns are the specified merges |
| Diagnostics.DeploymentPutStats.StatisticsAreExact | rust/src/diagnostics.rs:967-997 | after any reports each counter is the sum of its own number up to wrap-around, and groups and labels summarize all reported failures |
| Diagnostics.ValidIsAccepted | benchmarks/src/provider-summary.ts:459-515 | statistics whose attempts fit 64 bits pass all checks of the PutObject section, with those on labels, overflow and every counter, exactly when the wire attempts, the waits and the numbers of every group are safe integers |
| Diagnostics.UnsafeAttemptsAreRejected | benchmarks/src/provider-summary.ts:578-588 | coherent statistics of 2^53 failed attempts without any group that the collector rejects |
| Diagnostics.DeploymentPutStats.ReportsAreAccepted | benchmarks/src/provider-summary.ts:484-515 | after any reports whose attempts fit 64 bits the same holds of the statistics object |
| SourceOrder.AddedLast | src/shin-bucket-deployment.ts:1139-1145 | adding an element drops its earlier equivalent from the last occurrences and appends it |
| SourceOrder.LastAreInequivalent | src/shin-bucket-deployment.ts:703-708 | no two of the last occurrences are equivalent |
| SourceOrder.EveryClassRemains | src/shin-bucket-deployment.ts:703-708 | every class of sources that was added is still in the list |
| SourceOrder.LastOccurrencesDeployTheSame | src/shin-bucket-deployment.ts:700-708 | overlaying the list gives the same contents as overlaying everything that was added |
| SourceOrder.SameArchivesDeployTheSame | src/source-config.ts:56-70 | the same for any contents that bucket, archive key and catalog determine for sources without markers |
| SourceOrder.KeptUnlessAddedAgain | src/shin-bucket-deployment.ts:703-708 | a source is kept exactly unless it, or the same archive when neither has markers, was added again behind it |
| SourceOrder.SplicedOnce | src/shin-bucket-deployment.ts:1139-1144 | removing the first equivalent entry removes all equivalent entries |
| SourceOrder.Deployment.AddSource | src/shin-bucket-deployment.ts:1133-1146 | each source object is bound once, and the list is the last occurrences of everything added |
| Identity.U64RoundTrip | src/cataloged-source.ts:620-625 | eight big-endian bytes are read back to the same number |
| Identity.FieldsRoundTrip | rust/src/cloudformation.rs:874-882 | a list of length-prefixed fields is recovered from its bytes |
| Identity.PhysicalIdIsInjective | rust/src/cloudformation.rs:846-854 | equal physical-id preimages have the same owner, bucket and prefix |
| Identity.CallerReferenceIsInjective | rust/src/cloudformation.rs:827-844 | equal caller-reference preimages have the same request, distribution and paths |
| Identity.PhysicalIdIsConstant | rust/src/cloudformation.rs:856-872 | the physical id never changes over a create, any updates and a delete |
| Identity.DecodeFilesRoundTrip | src/cataloged-source.ts:606-618 | the file entries and the catalog are recovered from the identity's bytes |
| Identity.AssetIdentityIsInjective | src/cataloged-source.ts:545-618 | equal asset identity preimages have the same options, files and catalog |
| Identity.TagsV1AreValid | src/cataloged-source.ts:588-612 | the separating texts of version 1 tell a file from the catalog |
| Identity.WriteCatalog | src/cataloged-source.ts:545-586 | the catalog is written and hashed completely exactly when it has at most 64 MiB |
| Identity.HashAsset | src/cataloged-source.ts:378-422 | the running hash is fed exactly the preimage |
| ShellQuoting.SplitQuoted | scenarios/plan.ts:333-338 | a quoted value is read as that value by the shell's quoting rules, whatever follows it |
| ShellQuoting.SplitUndoesJoin | scenarios/plan.ts:329-338 | splitting undoes joining for every argument list |
| ShellQuoting.CleanupCommandIsReadBack | scenarios/plan.ts:299-304 | the cleanup command runs with exactly the scenario's name and the forwarded arguments |
| ShellQuoting.BenchmarkCleanupCommandIsReadBack | scenarios/plan.ts:306-327 | the benchmark command sets the stack suffix and runs with exactly its options |
| Sanitizer.EscapedLength | rust/src/util.rs:23-29 | the byte count that is checked is the UTF-8 length of the escaped characters |
| Sanitizer.UnsafeIsNamed | rust/src/util.rs:52-71 | the text that stands for an unsafe character reads back as that character, whatever follows it |
| Sanitizer.ChunkIsInjective | rust/src/util.rs:52-71 | different characters are escaped differently |
| Sanitizer.FittingIsKept | rust/src/util.rs:18-31 | what fits when escaped is not cut, and clean text that fits is not changed |
| Sanitizer.SanitizedIsBoundedAndClean | rust/src/util.rs:13-31 | the result has at most the given number of bytes and no control or line separator character |
| Sanitizer.CutIsLongest | rust/src/util.rs:33-50 | a value that does not fit keeps the longest prefix of whole escaped characters that leaves room for the suffix, followed by the suffix |
| Sanitizer.SanitizedIsStable | rust/src/util.rs:15-17 | sanitizing again with the same limit changes nothing |
| Sanitizer.SanitizeDiagnostic | rust/src/util.rs:18-31 | the loop escapes everything when that fits and truncates otherwise |
| Sanitizer.TruncatedDiagnostic | rust/src/util.rs:33-50 | the loop stops at exactly the longest fitting prefix |
| SourceWindow.WindowIsExact | rust/src/s3.rs:83-141 | the saturating computation equals the exact one: all available memory up to 512 MiB, beyond that 384 MiB less but at most 512 MiB, and never less than keeps the reads fed; an explicit window is taken as it is |
| SourceWindow.WindowFallsExactlyWhen | rust/src/s3.rs:108-122 | more available memory gives a smaller window exactly when it crosses 512 MiB by less than the slack, above the minimum |
| SourceWindow.MoreMemorySmallerWindow | rust/src/s3.rs:108-122 | a larger budget with a smaller window |
| SourceWindow.ConcurrencyIsExact | rust/src/s3.rs:76-81 | there are as many concurrent reads as the memory has steps of 256 MB, but at least one and at most eight |
| SourceWindow.DerivedWindowFits | rust/src/s3.rs:83-141 | the derived window fits the budget, the archive and the cap, and keeps every block read fed, in spite of saturation |
| SourceWindow.DefaultsFitHalfTheMemory | rust/src/s3.rs:76-81 | the default blocks of all concurrent reads fit half the memory exactly from 16 MiB on |
| SourceWindow.ConcurrencyGrowsWithMemory | rust/src/s3.rs:76-81 | the adaptive concurrency lies between 1 and 8 and never falls when memory grows |

## Left out

- Replacement.MarkerReplacements.Find: a plain scan with the result of a leftmost-longest search stands for the Aho-Corasick automaton.
- Replacement.MarkerReplacements.EmitStable: the pending buffer is passed in and returned instead of being drained in place.
- Replacement.MarkerReplacements.constructor: the sorting of the patterns is covered by allowing every order; JSON escaping of marker values is not modelled.
- MD5 and SHA-256 are modelled by the bytes fed to them; injectivity is assumed of the ledger digest where rejection is stated, and nowhere else.
- Listing.Bucket.List: a truncated page without keys, URL-encoded keys, a bucket that disappears during a cleanup and writers other than the request are not modelled; of a deletion that runs beside a listing the model says only which keys it removed before the answer.
- Destination.Transfer: object contents, archives, conditional writes and retries of the transfer are one step that may write any part of the planned keys.
- Glob filters are an arbitrary predicate on relative keys.
- Provider.Execution.HandleEvent: a deadline that cuts a run is the failure of the step it cuts; callback retries, deadlines as times and the polling of a wait are left out; of a failure only the fact is recorded, not which request it was.
- Provider.Execution.Create: a distribution that is missing counts as any other end of the attempt.
- ResumeLedger.OpenSession: locks, the git-dirty report, JSON texts and the derivation of run records from sample records are left out.
- ScenarioPool.Pool.Execute: the archive freshness check before the workers start, and exceptions thrown while a process is started, are left out.
- BenchmarkPool.Pool.StackEnded: which of several failures is reported is left out.
- Diagnostics.DeploymentPutStats.AddPutStats: that each transfer's own report is coherent is assumed; the counters are kept as one value, and the copy, delete and callback counters are left out.
- SourceOrder.Deployment.AddSource: read grants and per-source marker arrays are left out; what binding a source object gives is fixed per object.
- Identity.HashAsset: the JSON text of the options and of the catalog entries is taken as given bytes.
- ShellQuoting.SplitUndoesJoin: the reader refuses words with expansions, operators or comments instead of interpreting them.
- SourceWindow.DerivedWindowFits: a machine word is taken to have 64 bits.
- Archive parsing, ranged reads, retry timing, CDK wiring, property validation, statistics and report rendering are not modelled.
