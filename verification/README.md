# A verified model of the ingest pipeline's protocols

The repository indexes pull requests, commits and the links between them, gives merged pull requests dense
numbers, writes those numbers to a remote (as tags and title prefixes), and runs command-line executions for
users. Everything it shows is derived, by several processes at once, from rows in a database; all of it must
survive interleavings, lost answers and crashes. This project models those protocols in Dafny and proves what
they keep over whole runs.

Protocols with interleaved workers are state machines: a datatype for the state, `Enabled` and `Apply` for
every step of every worker, an inductive invariant, and theorems over every run. Loops and objects that change
their fields are methods and classes, proved against functions about which the theorems are stated. Where a
promised property does not hold, there is a concrete run that breaks it and the condition under which it holds.

| file | component |
|---|---|
| `MergeNumberPlan.dfy` | the numbering loop |
| `MergeNumberRuns.dfy`, `MergeNumberSafety.dfy` | concurrent reconcilers on one sequence space, and their whole-run theorem |
| `CanonicalJson.dfy` | canonical JSON text and the delivery key made from it |
| `ReindexCutover.dfy`, `ReindexSafety.dfy`, `ReindexExact.dfy` | zero-downtime reindex of documents: writers, fence, scan, alias move; and when exactly a move loses something |
| `LinkRecovery.dfy`, `LinkRecoveryRaces.dfy` | recovery of links that missed the index under construction, by one runner and by several |
| `LinkVerify.dfy` | verification of links by comparing and counting |
| `CherryPicks.dfy` | cherry-pick links, kept up to date event by event |
| `References.dfy` | reference links and abbreviated hashes |
| `CommitLinks.dfy` | projection of a commit's pull requests by generation |
| `LinkRepair.dfy` | the repair tool's plan and run |
| `TagRefs.dfy`, `TitlePrefix.dfy`, `PassSlot.dfy` | remote writes: tags, title prefixes, and the slot that serialises passes |
| `Executor.dfy` | claims, cancellation, policy and reclaim of executions |
| `Backfill.dfy`, `Archive.dfy` | the resumable backfill and the rotating archive |

## What the proofs found

- The planner's block `number_capacity_exceeded` cannot happen: a number never exceeds the ordinal it belongs
  to, and ordinals are safe integers (`CapacityNeverReached`).
- A reconciler whose write count did not match moves the checkpoint back after it gave up the lock, guarded by
  the epoch only. If another round committed meanwhile, numbered rows lie past the checkpoint, and the space is
  stuck: the same row now counts its own pull request as taken (`RecoveryCanUndoACheckpoint`,
  `UndoneCheckpointIsStuck`). It is harmless exactly when no number was handed out past that point
  (`RecoveryKeepsIff`, over whole runs `PromiseKeptIff`).
- Two different JSON numbers can have one canonical text: a literal too large for a double is parsed to
  infinity, which prints as null (`InfinityCollides`). Without such numbers the text is a faithful key.
- A reindex job may be paused and resumed, but its runner never looks. If another process claims the resumed
  job, the first runner passes the cutover check with an index that missed the writes made during the pause
  (`ResumedJobLosesAWrite`). A write that throws, or whose process dies, between the two indexes drops its
  recorded failures and can be lost the same way (`AbandonedWriteIsLost`). Over every run, readers lose nothing
  exactly when each document a write left out of the new index since the mover's activation was made good by
  another write (`StepRegressesIff`, `RunRegressesIff`; for the runner of an old claim: `CheckAndMoveIff`).
- A runner projecting a commit's pull requests may write after its lease ran out. If another runner found no
  document and an empty set, and the document is created and gets the older set, before or after that is
  acknowledged, the older set stays and nobody looks again (`LateWriteStays`, `AbsenceStays`). Over every run a
  commit that is done shows the wrong set exactly if some step was harmful and no later write repaired it
  (`WrongWhenDoneIff`, step by step `StepReflectsIff`): a non-empty write behind what was completed, or the
  acknowledgement of a missing document that by then shows something.
- A new commit can be missed among the affected copies of its patch without any warning: the query is cut at 200
  rows in both directions before the earlier ones are dropped (`SilentlyCut`). A copy is missed exactly if 200
  others come before it in the query (`ListedUnlessCut`), which takes copies of the very same time
  (`CutOffTies`), and its links are then wrong exactly if the new commit is among its own newest five
  (`MissedMattersIff`).
- A tag request with a lost answer is only remembered if it is the last attempt of its call, so a tag the
  worker created can end without any audit record (`UnknownForgotten`, exactly when: `AnyCallAuditsIff`, `UnauditedWasUnknown`). The
  title prefix is stricter still: once a request of the call took effect and its answer was lost, a call that
  ends done is audited only if the row was unknown before it (`TimedOutUnaudited`, exactly when:
  `OwnRequestAuditedIff`, `SameCallUnaudited`; over several calls: `PutOffUnaudited`, `AnyCallAuditedIff`).
- Two recoveries on one queue of missed links can delete a row neither has recovered: a deleted row is written
  again from generation one (`SecondRecoveryForgets`, exactly when: `DeleteKeepsIff`, `AccountedIff`). It cannot
  happen while no two recoveries hold the same row (`DistinctRowsAccounted`).
- Listing by last update, the default of the client, can skip a pull request nobody touched
  (`UpdatedOrderSkips`): a finished listing was shown completely exactly if nothing had slid before the last page
  unshown (`CoversIff`, and how it slides: `SlidesOff`, `SkippedSlid`). Listing by creation skips nothing
  (`BackfillJob.Work`).
- An execution reclaimed between its claim and the start of its process still starts it
  (`ReclaimedClaimStillSpawns`, exactly when: `StartedOnEndedIff`).

## Model

| member | source | states |
|---|---|---|
| MergeNumberPlan.PlanMergeNumbers | apps/pipeline-worker/src/mnumber-plan.ts:77-173 | the loop gives exactly the specified assignments, checkpoint, order counters and block for every input and budget |
| MergeNumberPlan.PlanNumbersDensely | apps/pipeline-worker/src/mnumber-plan.ts:77-173 | numbers are consecutive over the pull-request rows, a block sits right behind the new checkpoint, and the number never exceeds the ordinal |
| MergeNumberPlan.CapacityNeverReached | apps/pipeline-worker/src/mnumber-plan.ts:148-156 | on safe ordinals the capacity block is unreachable |
| MergeNumberPlan.NumberedRowPassesOnlyUnchanged | apps/pipeline-worker/src/mnumber-plan.ts:110-126 | a row that already has a number only passes with that very number and pull request |
| MergeNumberPlan.PlanSplit | apps/pipeline-worker/src/mnumber-plan.ts:77-173 | planning A + B is planning A and, if not blocked, planning B from where it stopped, with joined assignments and summed counters |
| MergeNumberPlan.BudgetCutIsPrefix | apps/pipeline-worker/src/mnumber-plan.ts:77-173 | running out of budget cuts the plan to a prefix of the unlimited one |
| MergeNumberPlan.ScanMeaning | apps/pipeline-worker/src/mnumber-plan.ts:77-173 | which rows are assigned, and which number each gets, said without the loop |
| MergeNumberPlan.StopIndexIs | apps/pipeline-worker/src/mnumber-plan.ts:77-173 | the walk stops at the first row that blocks, and nowhere else |
| MergeNumberRuns.SequenceSpace.Commit | apps/pipeline-worker/src/mnumber.ts:220-310 | the locked commit re-checks epoch, checkpoint and evidence versions, stores decisions, plans and writes exactly as specified |
| MergeNumberRuns.SequenceSpace.Recover | apps/pipeline-worker/src/mnumber.ts:288-303 | the recovery write is guarded by the epoch alone |
| MergeNumberSafety.CommitKeepsSpace | apps/pipeline-worker/src/mnumber.ts:220-310 | a commit from any stale view keeps every promise about rows, numbers and pull requests |
| MergeNumberSafety.StepKeepsInv | apps/pipeline-worker/src/mnumber.ts:175-374 | every step of every reconciler and of the evidence, hint and epoch writers keeps the invariant |
| MergeNumberSafety.RunsKeepNumbers | apps/pipeline-worker/src/mnumber.ts:175-374 | in every run a row holds n iff it is within the checkpoint, a confirmed pull request, and n counts those up to it; no pull request twice; no number changes within the epoch |
| MergeNumberSafety.RecoveryKeepsIff | apps/pipeline-worker/src/mnumber.ts:288-303 | the recovery write keeps the invariant iff no number was handed out past its target |
| MergeNumberSafety.PromiseKeptIff | apps/pipeline-worker/src/mnumber.ts:175-374 | over every legal run, recoveries included, the space keeps its promise throughout iff every recovery finds the number it read |
| MergeNumberSafety.RecoveryCanUndoACheckpoint | apps/pipeline-worker/src/mnumber.ts:288-303 | a reachable run in which the recovery puts the checkpoint behind a numbered row |
| MergeNumberSafety.UndoneCheckpointIsStuck | apps/pipeline-worker/src/mnumber.ts:240-303 | from there every further commit blocks at that row |
| MergeNumberSafety.StoreFits | apps/pipeline-worker/src/mnumber.ts:230-262 | storing decisions never takes a confirmation back and matches what is planned from them |
| CanonicalJson.CanonFaithful | apps/ingest-gateway/src/payload.ts:17-29 | equal canonical texts iff equal values up to key order, with infinities read as null |
| CanonicalJson.CanonFaithfulOnFinite | apps/ingest-gateway/src/payload.ts:17-29 | for finite numbers, equal texts iff equal values up to key order |
| CanonicalJson.InfinityCollides | apps/ingest-gateway/src/payload.ts:17-29 | two different parsed values with one canonical text |
| CanonicalJson.ValueUnique | apps/ingest-gateway/src/payload.ts:17-29 | printed values can be read off the front of a text in one way only, whatever follows |
| CanonicalJson.EscapeUnique | apps/ingest-gateway/src/payload.ts:17-29 | escaped strings are uniquely readable up to their closing quote |
| CanonicalJson.SortedUnique | apps/ingest-gateway/src/payload.ts:20-26 | sorting by distinct keys has one result |
| CanonicalJson.DeliveryIdFaithful | apps/ingest-gateway/src/payload.ts:32-45 | made keys agree iff the payloads do, given an injective hash |
| ReindexSafety.StepKeepsInv | packages/db/src/reindex-fence.ts:109-150 | every calm step of writers, operators and runners keeps coverage: what readers see is in the new index, still to be copied, or owed by an open write |
| ReindexSafety.NothingIsLost | apps/pipeline-worker/src/reindex.ts:1861-2020 | over every calm run the version a reader of the alias sees never goes back |
| ReindexSafety.MoveIsComplete | apps/pipeline-worker/src/reindex.ts:1948-1992 | when the alias is about to move, every document is in the new index, no older, and no write is open |
| ReindexSafety.AliasMoveWasChecked | apps/pipeline-worker/src/reindex.ts:1948-1952 | in every run, calm or not, the runner that moves the alias has itself seen the job running, no failure and no open write, and has held the exclusive fence, with none of that changed, ever since |
| ReindexSafety.CutoverMirrored | apps/pipeline-worker/src/reindex.ts:1948-1952 | a passing check by the newest runner finds every visible document mirrored |
| ReindexSafety.PageCopies | apps/pipeline-worker/src/reindex.ts:305-393 | whatever the scan had still to copy is on the page it reads or still ahead of its cursor |
| ReindexSafety.ItemCovers | packages/es/src/upsert.ts:227-315 | an answer for one document of an open write leaves every document covered |
| ReindexSafety.LeaveCovers | packages/db/src/reindex-fence.ts:126-143 | a write that ends without failures owes nothing, and a page it wrote is copied |
| ReindexSafety.AbandonThenMoveIff | packages/db/src/reindex-fence.ts:126-147 | after a write whose failures are dropped, a move regresses nothing iff each served document is mirrored as new |
| ReindexSafety.AbandonedWriteIsLost | packages/db/src/reindex-fence.ts:126-147 | a reachable run in which such a write is lost |
| ReindexSafety.ResumedJobLosesAWrite | apps/pipeline-worker/src/reindex.ts:1948-1952 | a reachable run with a pause, a write and a second claim in which a document disappears at the move |
| ReindexExact.StepKeepsExact | packages/db/src/reindex-fence.ts:109-150 | every step, calm or not, keeps: what readers see is in the new index, to be copied, owed by an open write, or among what writes left out since the runner activated |
| ReindexExact.StepRegressesIff | apps/pipeline-worker/src/reindex.ts:1948-1992 | in every reachable state a step takes something back iff it is a move with a left-out document that no other write made good |
| ReindexExact.CheckAndMoveIff | apps/pipeline-worker/src/reindex.ts:1948-1992 | a runner of any claim, also one taken over, that checks and moves regresses nothing iff all left-out documents were made good |
| ReindexExact.RunRegressesIff | apps/pipeline-worker/src/reindex.ts:1861-2020 | over every run with pauses, second claims and abandoned writes: nothing is ever lost iff every move met that condition |
| LinkRecovery.LinkQueue.Miss | packages/db/src/repositories/reindex.ts:421-441 | a miss writes a row or raises its generation, and is accounted for |
| LinkRecovery.LinkQueue.ListPending | packages/db/src/repositories/reindex.ts:444-460 | a page is the first rows after the cursor in key order |
| LinkRecovery.LinkQueue.RecoverPage | apps/pipeline-worker/src/reindex.ts:934-947 | a row is only deleted if its source was derived completely, or was gone, after its last miss |
| LinkRecovery.LinkQueue.RecoverLinkPending | apps/pipeline-worker/src/reindex.ts:925-959 | succeeds only if the queue was empty at some moment and what waits now was missed since; fails only after five rounds; with no miss and no incomplete derivation meanwhile one round empties the queue and it succeeds |
| LinkRecovery.LinkQueue.Cutover | apps/pipeline-worker/src/reindex.ts:1916-2040 | at most three attempts; at the move no row waits and every source was derived after its last miss; without refusals, misses and incomplete derivations it moves at the second attempt at the latest |
| LinkRecoveryRaces.DeleteKeepsIff | packages/db/src/repositories/reindex.ts:463-474 | a deletion keeps every miss accounted for iff the row moved on, is the very row that was read, or its source was derived after its last miss |
| LinkRecoveryRaces.AccountedIff | packages/db/src/repositories/reindex.ts:421-474 | over every run of any number of recoveries no miss is forgotten iff every deletion was such |
| LinkRecoveryRaces.DistinctRowsAccounted | apps/pipeline-worker/src/reindex.ts:925-959 | with no row in the hands of two recoveries nothing is forgotten in any run |
| LinkRecoveryRaces.SecondRecoveryForgets | packages/db/src/repositories/reindex.ts:463-474 | a run from the empty queue in which two recoveries read one row and the second deletes what a later miss wrote |
| LinkVerify.VerifyLinkEdges | apps/pipeline-worker/src/reindex.ts:1326-1427 | no reason against iff the target is exactly the planned links of all repositories, field for field, with nothing from elsewhere |
| LinkVerify.CheckRepository | apps/pipeline-worker/src/reindex.ts:1337-1403 | one repository is clean iff it owns exactly its planned links |
| LinkVerify.Check | apps/pipeline-worker/src/reindex.ts:1341-1377 | a page is clean iff its sources all have plans and the links read are the planned ones |
| LinkVerify.OrphansCounted | apps/pipeline-worker/src/reindex.ts:1396-1402 | with right pages, equal counts are the same as having no orphan |
| CherryPicks.PlanCherryPicks | apps/pipeline-worker/src/relations.ts:302-370 | the trailers' links if there are any, else those of the newest five earlier copies, one document each |
| CherryPicks.RowsAreRanked | packages/db/src/repositories/commit-snapshot.ts:275-317 | an ordered, limited query returns exactly the candidates with fewer than the limit before them |
| CherryPicks.LinkIndex.Write | apps/pipeline-worker/src/relations.ts:675-722 | upserting the plan and deleting the rest leaves exactly the plan for the source |
| CherryPicks.AffectedTargets | apps/pipeline-worker/src/relations.ts:865-980 | below the limit, every other commit whose plan the new one can change is derived again, but for copies its own limited query cut off |
| CherryPicks.ListedUnlessCut | packages/db/src/repositories/commit-snapshot.ts:275-317 | an affected copy is on the query's rows iff fewer than 200 others come before it |
| CherryPicks.CutOffTies | apps/pipeline-worker/src/relations.ts:903-921 | a copy cut off below the limit has the new commit's very time, as does a smaller hash on the rows |
| CherryPicks.MissedMattersIff | apps/pipeline-worker/src/relations.ts:302-370 | the plan of a missed copy changes iff the new commit is among its own newest five |
| CherryPicks.SilentlyCut | apps/pipeline-worker/src/relations.ts:903-921 | 202 copies of one time: 199 targets, below the limit, and the last copy missed although its plan changes |
| CherryPicks.StorePlans | apps/pipeline-worker/src/relations.ts:302-370 | a stored commit changes no plan but those it affects |
| CherryPicks.QuietIndexIsRebuild | apps/pipeline-worker/src/relations.ts:604-1018 | in any order of arrivals, with arrivals amid derivations and failing consumers, an idle index is what a rebuild makes, if no affected source was cut off |
| CherryPicks.LaterIsOrder | apps/pipeline-worker/src/relations.ts:188-193 | later-than is a strict total order |
| CherryPicks.DerivedLinksAcyclic | apps/pipeline-worker/src/relations.ts:302-370 | following derived links never comes back, so none exists in both directions |
| References.PlanUpdates | apps/pipeline-worker/src/link.ts:560-615 | the loop makes exactly the specified update for each link that names the target |
| References.PrefixResolvesIffUnique | packages/es/src/links.ts:529-584 | an abbreviated hash resolves to a commit iff that is the only one it matches |
| References.SecondMatchUnresolves | apps/pipeline-worker/src/link.ts:484-506 | a second match takes the resolution back |
| References.NewTargetResolves | apps/pipeline-worker/src/link.ts:507-535 | a new document changes the resolution only of names the reverse lookup finds for it |
| References.LookupDecides | apps/pipeline-worker/src/link.ts:537-615 | what the lookup leaves alone is right already, what it updates becomes right |
| References.StepKeepsInv | apps/pipeline-worker/src/link.ts:334-683 | every step keeps: each stored link is right, or a waiting or running event will bring it right |
| References.QuietLinksAreReplanned | apps/pipeline-worker/src/link.ts:275-683 | once no event waits, every source holds exactly the links planning it now would make |
| CommitLinks.HonestStep | packages/es/src/commit-links.ts:124-201 | the index generation never drops, carries the canonical set of exactly that generation, and no conflict arises among runners |
| CommitLinks.ProjectionNeverRollsBack | apps/pipeline-worker/src/commit-links.ts:101-259 | the same over every run with any number of runners, expired leases and crashes |
| CommitLinks.QuietCommitConverged | apps/pipeline-worker/src/commit-links.ts:101-259 | if writes happen under their lease, a commit that is done shows its canonical set |
| CommitLinks.StepReflectsIff | apps/pipeline-worker/src/commit-links.ts:135-176 | in every reachable state an index that reflects the row stays so iff the step is not harmful, and one that does not is brought back iff the step is a mending write |
| CommitLinks.ReflectedIff | apps/pipeline-worker/src/commit-links.ts:101-259 | over every run the index reflects the row throughout iff no step is harmful |
| CommitLinks.WrongWhenDoneIff | apps/pipeline-worker/src/commit-links.ts:101-259 | over every run a done commit shows a wrong set iff some harmful step was not mended since |
| CommitLinks.LateWriteStays | apps/pipeline-worker/src/commit-links.ts:165-176 | a reachable run that ends done with the wrong set in the index, the late write coming last |
| CommitLinks.AbsenceStays | apps/pipeline-worker/src/commit-links.ts:165-176 | the same with a harmless late write first and the acknowledgement of the missing document doing the harm |
| CommitLinks.LinkRunner.ApplyLinks | packages/es/src/commit-links.ts:124-201 | classification first, then the guarded update; never a new document |
| CommitLinks.LinkRunner.Complete | packages/db/src/repositories/pr-commit-link.ts:677-698 | only under its own lease, and ready again if the generation moved on |
| CommitLinks.LinkRunner.Release | packages/db/src/repositories/pr-commit-link.ts:706-732 | only under its own lease |
| CommitLinks.LinkRunner.RunOne | apps/pipeline-worker/src/commit-links.ts:121-255 | an undisturbed row ends done with its set shown, or back in the queue with the document untouched, for the two reasons there are |
| LinkRepair.PlanLinkRepair | apps/pipeline-worker/src/link-repair.ts:192-351 | the paged plan counts exactly the commits to change and the blocked ones over all visited commits |
| LinkRepair.ApplyLinkRepair | apps/pipeline-worker/src/link-repair.ts:406-497 | the paged run hands the queue exactly the commits to change and counts the blocked ones |
| LinkRepair.ScanPages | apps/pipeline-worker/src/link-repair.ts:289-318 | paging by the last hash reads every row once, in order |
| LinkRepair.Consider | apps/pipeline-worker/src/link-repair.ts:225-276 | collects the added, removed and withheld numbers, through its cache of verified pull requests |
| LinkRepair.CheckCommit | apps/pipeline-worker/src/link-repair.ts:422-452 | says whether there is something to apply and something withheld, without collecting |
| LinkRepair.VisitsEachOnce | apps/pipeline-worker/src/link-repair.ts:283-337 | the two scans visit every commit of index and relation, and none twice |
| LinkRepair.PlanAndApplyAgree | apps/pipeline-worker/src/link-repair.ts:192-497 | on one state the plan counts what the run hands to the queue and blocks |
| LinkRepair.RepairReachesCanonical | apps/pipeline-worker/src/link-repair.ts:225-252 | indexed plus added minus removed is canonical plus withheld |
| TagRefs.TagCall.AttemptOnce | apps/pipeline-worker/src/mnumber-tag.ts:165-225 | at most one creating request, only for a row just found current and a tag not seen; a lost answer is reported as unknown |
| TagRefs.TagCall.Materialize | apps/pipeline-worker/src/mnumber-tag.ts:230-367 | no tag is moved, at most five requests and none once the tag is there, and a call that ends done after one of its own took effect writes exactly one audit record |
| TagRefs.TagCall.TwoCalls | apps/pipeline-worker/src/mnumber-tag.ts:230-367 | of two calls with anything in between, the second, ending done, writes an audit iff it wrote the tag, had an unknown attempt, or the first left the row unknown; with the worker's tag in place at its start iff the first did |
| TagRefs.JudgeKeepsUnknownIff | apps/pipeline-worker/src/mnumber-tag.ts:296-358 | a call that does not end done leaves the row unknown iff its last attempt was, or the row was and no mark was left |
| TagRefs.AnyCallAuditsIff | apps/pipeline-worker/src/mnumber-tag.ts:230-367 | after any number of calls, whenever the tag appeared: a call ending done audits iff it wrote it, had an unknown attempt, or an earlier call ended unknown and none since left a mark |
| TagRefs.UnauditedWasUnknown | apps/pipeline-worker/src/mnumber-tag.ts:296-358 | a tag of the worker's ends unaudited only if an earlier call had an unknown attempt the row no longer tells of |
| TagRefs.NextCallAuditsIff | apps/pipeline-worker/src/mnumber-tag.ts:230-367 | whatever the attempts of two calls did at the remote: the second audits the tag it starts with iff the first's last attempt was unknown, or the row was and the first left no mark |
| TagRefs.OwnIsAudited | apps/pipeline-worker/src/mnumber-tag.ts:296-310 | a call that ends done after a request of its own created the tag writes an audit record |
| TagRefs.UnknownForgotten | apps/pipeline-worker/src/mnumber-tag.ts:296-358 | two calls, attempt by attempt with the remote, that create a tag and never audit it |
| TitlePrefix.ParseOfFormat | packages/domain/src/mnumber.ts:41-80 | a printed merge number is read back as the same code and number |
| TitlePrefix.AnnotatedIsRecognised | packages/github-annotate/src/title.ts:84-97 | a title with the prefix in front is never given another one |
| TitlePrefix.PrefixedAtMostOnce | apps/pipeline-worker/src/annotate.ts:260-351 | over any runs, crashes and lost or late requests the title is as edited or prefixed once; a foreign number stays |
| TitlePrefix.NumberPrefixedAtMostOnce | apps/pipeline-worker/src/annotate.ts:260-351 | the same for every code and number that can be printed, from any title |
| TitlePrefix.AnnotateCall.AttemptOnce | apps/pipeline-worker/src/annotate.ts:260-351 | at most one changing request, and none unless the title just read lacks a merge number |
| TitlePrefix.AnnotateCall.AnnotateOne | apps/pipeline-worker/src/annotate.ts:360-632 | the loop ends with restarts uncounted, at most five requests, the title proper, a row with a differing body untouched, and an own prefix audited iff its answer came or the row was unknown |
| TitlePrefix.OwnRequestAuditedIff | apps/pipeline-worker/src/annotate.ts:427-491 | a call ending done after one of its requests took effect writes an audit record iff that was answered or the row was unknown before |
| TitlePrefix.SameCallUnaudited | apps/pipeline-worker/src/annotate.ts:360-491 | once a request whose answer was lost has taken effect nothing more is sent, and ending done is audited iff the row was unknown before the call |
| TitlePrefix.TimedOutUnaudited | apps/pipeline-worker/src/annotate.ts:427-491 | for every title without a number, a call of two attempts that sets the prefix and audits nothing |
| TitlePrefix.AnyCallAuditedIff | apps/pipeline-worker/src/annotate.ts:360-632 | after any number of calls on any titles: a call ending done audits iff its request was answered, or an earlier call ended unknown and none since left a mark |
| TitlePrefix.PutOffUnaudited | apps/pipeline-worker/src/annotate.ts:427-491 | for every title without a number, two calls that set the prefix and audit nothing |
| PassSlot.OneHolder | apps/pipeline-worker/src/annotate.ts:647-707 | at most one pass holds the slot |
| PassSlot.GrantsInOrder | apps/pipeline-worker/src/annotate.ts:647-707 | the slot is granted in order of arrival, after everybody earlier is gone |
| PassSlot.NobodyWaitsForNothing | apps/pipeline-worker/src/annotate.ts:647-707 | while nobody holds the slot and somebody waits, something goes on by itself |
| PassSlot.EverybodyLeaves | apps/pipeline-worker/src/annotate.ts:647-757 | after any history, without arrivals: every run is bounded, and one that long, or after which only arrivals can happen, leaves every pass gone |
| Executor.SpawnedAtMostOnce | apps/gh-executor/src/runner.ts:227-330 | in every run at most one claim and one process, the claim uncancelled and allowed by the policy |
| Executor.ClaimedUnderAcceptedPolicy | apps/gh-executor/src/runner.ts:254-302 | a claim happens only uncancelled and under the accepted policy revision, else nothing changes |
| Executor.EndedStaysEnded | apps/gh-executor/src/runner.ts:360-408 | an ended row stays as it ended; late results are dropped |
| Executor.NotStartedNeverRuns | apps/gh-executor/src/runner.ts:206-302 | a request closed unclaimed never starts a process; one that succeeded or timed out started exactly one |
| Executor.StartedOnEndedIff | apps/gh-executor/src/runner.ts:254-330 | in every run a process is started on an ended row iff a reclaim came after its claim, iff reading the row again would not find it running under this executor |
| Executor.ReclaimedClaimStillSpawns | apps/gh-executor/src/sweeper.ts:26-41 | a run from the request on in which a claim is reclaimed and then starts its process |
| Backfill.ReadCursor | apps/pipeline-worker/src/backfill-plan.ts:100-107 | whatever is stored, the cursor read is well formed |
| Backfill.SleepMsUntil | apps/pipeline-worker/src/backfill-plan.ts:173-177 | never longer than a minute, never past the time asked for, zero only if that has passed |
| Backfill.SlidesOff | packages/github/src/client.ts:352-387 | what lies beyond the page read is on neither that page nor any later one of the next reading iff it slid before the border |
| Backfill.CoversIff | apps/pipeline-worker/src/backfill.ts:157-264 | a finished listing, rearranged at will between pages, was shown completely iff nothing unshown lay before the last page |
| Backfill.SkippedSlid | packages/github/src/client.ts:352-387 | whoever is never shown slid, between two consecutive readings, over the border of the page just read |
| Backfill.GrowingCovers | packages/github/src/client.ts:352-387 | in the order of creation a finished listing was shown completely |
| Backfill.BackfillJob.ProcessPage | apps/pipeline-worker/src/backfill.ts:187-222 | exactly the page read is processed whatever happens meanwhile, and a short page ends the listing |
| Backfill.BackfillJob.Run | apps/pipeline-worker/src/backfill.ts:157-264 | however a run ends the stored cursor is behind what was processed; reaching the last page covers everything first found iff nothing slid away, by creation always |
| Backfill.BackfillJob.Work | packages/db/src/repositories/job.ts:213-310 | the same for any sequence of claims, runs, deaths, pauses, resumes and cancellations; a cancelled job does nothing more |
| Backfill.BackfillJob.FinishIfRunning | apps/pipeline-worker/src/backfill.ts:551-566 | a job that is not running keeps its state |
| Backfill.UpdatedOrderSkips | packages/github/src/client.ts:352-387 | two pages of a listing of 101, one edit in between: the job ends without having shown an untouched pull request |
| Archive.ArchiveWriter.Rotate | apps/ingest-gateway/src/archive.ts:111-124 | renaming segment by segment shifts them all, with never more than the limit in between |
| Archive.ArchiveWriter.AppendOne | apps/ingest-gateway/src/archive.ts:126-144 | rotates exactly if the line would not fit |
| Archive.ReadingIsSuffix | apps/ingest-gateway/src/archive.ts:111-176 | reading the segments oldest to newest gives a suffix of what was there followed by the appended lines |
| Archive.SegmentsConserved | apps/ingest-gateway/src/archive.ts:111-144 | rotations are the dropped segments and the rotated ones still present |
| Archive.SegmentsBounded | apps/ingest-gateway/src/archive.ts:126-144 | a segment only exceeds the limit if it is one over-long line |

## Left out

- SQL, search queries and scripts, HTTP and git appear as the atomic conditional updates, pages and lookups they
  promise; several of those contracts are read from the repositories under `packages/db` and `packages/es`.
- Search results that lag behind writes: indexes are read as they are.
- Several link consumers at once: `References` and `CherryPicks` have one, with arrivals interleaved.
- MergeNumberSafety.RunsKeepNumbers: covers runs whose recovery writes find no number past their target, by `PromiseKeptIff` all in which the promise can hold; the others are `RecoveryCanUndoACheckpoint`.
- ReindexSafety.NothingIsLost: covers runs in which no write ends half visible and only the runner of the newest claim passes the check; `ReindexExact.RunRegressesIff` covers all runs, with the exact condition.
- LinkRecovery.LinkQueue.Cutover: covers one recovery on the queue; several are `LinkRecoveryRaces`.
- CommitLinks.QuietCommitConverged: covers runs in which a runner writes under its lease; `WrongWhenDoneIff` covers all runs, with the exact condition.
- CherryPicks.QuietIndexIsRebuild: the affected sources stay below the limit of 200 and none is cut off by its query (`ListedUnlessCut`); beyond that a rebuild corrects, which is not modelled.
- Backfill.BackfillJob.Work: one runner at a time; that a job paused, resumed and claimed again within one page of its first runner is run twice at once is not modelled.
- Paged lookup of evidence with its resume (`mnumber-evidence.ts`): what a lookup may answer is a predicate.
- Registry-owned fields, author teams and the index identity check in the reindex: documents are their versions.
- The listing of repositories by offset while repositories are renamed, in the reindex.
- Failed writes of single links, extraction of references and reverts, stacks, relation summaries.
- `pr_links_state`, shadow writes and foreign writers of a commit's pull requests.
- File-system errors and the failed branch of the archive's promise chain; bytes of a line are its length.
- Dropped `undefined` members and the bytes under the hash in the delivery key; the hash is assumed injective.
- Database errors in the middle of a tag or title call, which end it without a mark; requests of earlier calls still out are part of the title's runs (`PrefixedAtMostOnce`), not of `AnnotateOne`.
- Gates before a tag or title is attempted (repository policy, cool-down, code of the repository) and pacing.
- Revalidation, workspace, output parsing and metrics of an execution.
- Retention of old indexes, sweeper shells, document mapping, partitions and metadata cleanup: only easy members.
