# RunLore, verified

RunLore investigates alerts, keeps what it learns as entries in a git repository, and grooms
that repository through pull requests. This project models six of its parts in Dafny and
proves what each promises over every input, every failure and every interleaving.

| files | part |
|---|---|
| `Catalog.dfy`, `Reload.dfy`, `Sync.dfy` | the knowledge catalog: index, entries, vectors and embedding cache, kept in step by full and incremental reloads, and the git syncer that drives them |
| `Coalescer.dfy` | the alert coalescer: pending batches and cooldowns per correlation key |
| `Forge.dfy`, `Refresh.dfy`, `Queue.dfy` | the merge gate: rebuild conflicting pull requests, then grant or withdraw `ready-to-merge` |
| `Policy.dfy`, `RateLimiter.dfy`, `AutoGate.dfy`, `Approvals.dfy` | the action gate: envelope, rate limit, kill-switch, approval queue |
| `Audit.dfy` | the hash-chained audit log |
| `Dedup.dfy`, `Sweeps.dfy`, `Calibration.dfy`, `Proposals.dfy`, `LostLabels.dfy` | the backlog passes whose only memory is the forge |
| `Calendar.dfy`, `Schedule.dfy`, `Render.dfy`, `QueueIssue.dfy` | the Knowledge queue issue: schedule, marker, size-bounded body |
| `Fingerprint.dfy` | the identity of an incident |

Go types with pointer receivers are classes proved against a specification function; passes
with value receivers over an external forge are methods over a forge value. Concurrency is a
machine of small steps, and a claim about a run holds of every interleaving of those steps.
The clock is an input that never runs backwards. A failing call is an input too, and a write
that fails may still have taken effect.

Taken as given: sha256 is injective and never empty; JSON records read back as written; the
embedder and the parser are functions; a successful sync leaves the mirror at the revision it
reports, and a diff names every path that differs; times are in UTC.

Seven promises turned out not to hold as widely as the documentation or the code's comments
say. For each there is an input, or a whole family of them, at which it fails, and an exact
condition that can be checked beforehand:

* `internal/catalog/catalog.go:264` says an incremental error must never leave a wrong index
  behind. It does when the fallback rebuild fails too and a path already reached had changed
  (`Syncing.TickKeepsGoodIff`, `Syncing.LossHappens`). A retry at the same revision heals it
  (`RetryHeals`); the head going back to `lastRev` does not (`ReturnDoesNotHeal`).
* `internal/curate/revalidation.go:66` says retirement and revalidation are disjoint by
  construction. The prior is not validated, and an infinite one or a negative even one makes
  the factor not a number, so that both passes propose the entry (`Calibrating.DisjointIff`,
  `Calibrating.PriorIsNotValidated`).
* An open proposal means "already asked" (`internal/curate/lifecycle.go:26-29`), but opening
  can fail between the pull request and its label, as `internal/forge/github/entryedit.go:92-100`
  warns. A sweep opens a second proposal for an entry if and only if the entry's turn leaves a
  pull request while an open unlabelled one stands (`LostLabels.StepDoublesIff`,
  `LostLabels.RunStaysSingleIff`, `LostLabels.UnlabelledIsRepeated`). What the passes can see
  repeats if and only if a human labels a second one by hand (`Proposing.RunStaysVisibleIff`,
  `LostLabels.LabellingMakesTwo`).
* A declined proposal is a permanent veto (`internal/curate/revalidation.go:162-168`) only when it
  carries the label: a candidate that the successful openings before it leave a slot is passed over
  if and only if some proposal for it, open or declined, does (`LostLabels.SkippedIff`,
  `LostLabels.DeclinedIsProposedAgain`).
* `max_open` bounds the open revalidations only up to the openings that failed with their pull
  request there (`Proposing.QueueStaysBounded`). Without counting those there is no bound
  (`LostLabels.OpenProposalsAreUnbounded`, `LostLabels.LabelledSlipExceeds`). A sweep exceeds it if
  and only if some candidate that would open comes after as many that would as there is room for,
  and the successful openings before it leave it a slot (`LostLabels.SweepExceedsIff`).
* An append keeps a verified audit log verified if and only if the file ends in a newline, the record
  chains from the file's tail and its line is under 1 MiB (`Audit.AppendVerifiesIff`). This asks of a
  file without that newline only that its last line joined with the record does not parse; what
  happens if the two do parse is `Audit.AppendJoinsIff`.
  A failed fsync breaks the second condition (`Audit.SyncFaultBreaksNextAppend`). A write torn just
  before its newline breaks the first in silence, as `Open` and `OpenVerified` both accept the file
  (`Audit.TornAtTheNewline`); one torn inside the record leaves a file that `OpenVerified` refuses
  (`Audit.TornWriteIsRefused`).
* `internal/curator/fingerprint.go:201-202` says a trigger can never collide with a prose cause. It
  does if and only if the cause side's resource extends the trigger side's with `|trigger:` and the
  trigger goes on like it (`Fingerprints.TriggerIsNotCause`, `Fingerprints.TriggerCollidesWithCause`);
  two triggers collide under the same kind of condition (`Fingerprints.TriggerIdentity`,
  `Fingerprints.RefsCollideIff`, `Fingerprints.TriggersCollide`).

## Model

| member | source | states |
|---|---|---|
| Catalogs.IndexIsDocs | internal/catalog/catalog.go:330-341 | Indexing a loaded tree gives each path exactly the document its file stands for, and nothing for a path that does not load |
| Catalogs.DiffPaths | internal/catalog/sync.go:174-205 | A path is in the changed list exactly when some change leads to it, and in the removed list exactly when some change leads away from it |
| Catalogs.TrueDiffCovers | internal/catalog/sync.go:195-204 | The delta of a complete diff names every path that differs, and a path it only removes is gone; renames included |
| Catalogs.DeltaRefinesRebuild | internal/catalog/catalog.go:292-313 | Mutating the index of one tree by a covering delta gives exactly the index a full rebuild of the other tree gives |
| Catalogs.AppliedAt | internal/catalog/catalog.go:292-313 | For any starting index and any point of failure: what each path holds after the first k operations |
| Catalogs.PartialKeepsIff | internal/catalog/catalog.go:314-319 | A mutation cut short leaves the old tree's index if and only if each path it reached still holds its old document |
| Reloading.EmbedPassIsFresh | internal/catalog/hybrid.go:45-94 | The cached pass agrees with embedding everything afresh: complete and right vectors or none, only texts absent from the cache are sent, a success caches exactly the corpus, a failure loses nothing |
| Reloading.EmbedWithCache | internal/catalog/hybrid.go:53-94 | The loops over keys, misses and the new cache compute that pass |
| Reloading.LookUp | internal/catalog/hybrid.go:61-75 | Every entry gets the cached vector of its own text or a place in the miss list, and each miss points at an entry with that text |
| Reloading.FillMisses | internal/catalog/hybrid.go:76-88 | Each fresh vector lands on the entries whose text it embeds, and no entry is left without one |
| Reloading.ReloadKeepsVectors | internal/catalog/catalog.go:203-328 | Whatever fails in a reload, whenever there is a vector per entry each is its own entry's embedding |
| Reloading.PathIndexResolves | internal/catalog/catalog.go:65-71 | The path index knows exactly the indexed paths, and leads to an entry at that path whose document is the indexed one |
| Reloading.KnownResolves | internal/catalog/catalog.go:447-454 | Resolved hits are entries at their own paths, and none is dropped when the index and the entries match |
| Reloading.Resolve | internal/catalog/catalog.go:447-454 | Known hits resolve in the order of the hits and unknown ones are skipped |
| Reloading.Catalog.ReloadContext | internal/catalog/catalog.go:203-256 | A full reload swaps all fields together, or changes nothing when the walk or an index operation fails |
| Reloading.Catalog.ReloadDelta | internal/catalog/catalog.go:266-328 | An incremental reload with its fallbacks has exactly the specified effect on every field, for any failure |
| Reloading.Catalog.Mutate | internal/catalog/catalog.go:292-313 | The live index after the removals and then the changes, up to the first operation that fails |
| Reloading.Catalog.BuildIndex | internal/catalog/catalog.go:330-341 | The index of all entries, or nothing if any operation fails |
| Reloading.Catalog.PathIndex | internal/catalog/catalog.go:65-71 | Each path maps to its last position |
| Syncing.Syncer.Sync | internal/catalog/sync.go:284-290 | `lastRev` advances on every successful sync, and the delta is the one from the previous revision where that is known |
| Syncing.Syncer.Do | internal/catalog/sync.go:299-316 | One step of Run on the syncer and the catalog together, with the rollback of `lastRev` |
| Syncing.TickAt | internal/catalog/sync.go:299-316 | Path by path and with no failure excluded: which paths of the live index disagree with the tree at `lastRev` after a tick, from which did before |
| Syncing.TickKeepsGoodIff | internal/catalog/sync.go:299-316 | A tick keeps the catalog equal to a full rebuild at `lastRev` if and only if it is not a torn one that reached a path it changed |
| Syncing.RunInStep | internal/catalog/sync.go:295-316 | Over every run, entries and path index belong to `lastRev`, and vectors stay right |
| Syncing.IndexFollowsLastRev | internal/catalog/sync.go:284-316 | Over every run of moves and failures without a torn tick, the index is at each point the full rebuild of the tree at `lastRev` |
| Syncing.RetryHeals | internal/catalog/sync.go:309-315 | Even after torn ticks, while upstream rests, the index is exactly its rebuild once `lastRev` names that revision |
| Syncing.ReturnDoesNotHeal | internal/catalog/sync.go:306-315 | After a torn tick that lost agreement, the head going back to `lastRev` changes nothing and the index stays wrong |
| Syncing.LossHappens | internal/catalog/catalog.go:262-265 | A concrete mirror and tick where the index is left wrong |
| Coalescing.EveryAlertAccountedFor | internal/coalesce/coalescer.go:172-239 | In every reachable state alerts added equal suppressed plus pending plus flushed, and per key the flushed batches and the pending one are the admitted alerts in arrival order |
| Coalescing.StormCollapses | internal/coalesce/coalescer.go:183-228 | A key that flushes inside its cooldown flushes only alerts that came after the previous flush and were new criticals or contested |
| Coalescing.CriticalFate | internal/coalesce/coalescer.go:196-214 | A critical is flushed by its own Add, or its title had been flushed for its key and it is suppressed, or buffered as contested |
| Coalescing.RepeatIsSuppressed | internal/coalesce/coalescer.go:183-195 | An uncontested alert whose title its key flushed less than a cooldown ago changes nothing |
| Coalescing.ArrivalJustified | internal/coalesce/coalescer.go:262-288 | The route an alert takes agrees with the whole history of flushes, though the cooldown map keeps one record a key |
| Coalescing.SweepFlushesTheDue | internal/coalesce/coalescer.go:306-324 | A sweep leaves pending exactly the batches that are neither quiet nor old, in whatever order the map yields them |
| Coalescing.RunKeeps | internal/coalesce/coalescer.go:172-336 | The invariant behind these holds over every run of Add and sweep |
| Coalescing.Coalescer.Add | internal/coalesce/coalescer.go:172-239 | Add on the two maps refines the machine's step |
| Coalescing.Coalescer.Sweep | internal/coalesce/coalescer.go:306-324 | The sweep over the pending map flushes the due keys, each once |
| Coalescing.Coalescer.MarkFlushed | internal/coalesce/coalescer.go:292-302 | The key's record takes the flush time and gains exactly the batch's titles |
| Coalescing.Coalescer.EvictExpired | internal/coalesce/coalescer.go:330-336 | Exactly the records that can suppress nothing are dropped |
| Refreshing.Once | internal/curate/refresh.go:88-121 | Whichever call fails: every push is earned and finds no `ready-to-merge`, at most ten happen, none is of an unlabelled pull request while a labelled one waits past the cap, what waits is untouched and only when more than ten earn a push, everything looked at is rebuilt, refused for the right reason or failed, and the pass stops early only on a rate limit |
| Refreshing.Consider | internal/curate/refresh.go:131-157 | What one pull request does to the forge, the budget and the outcome, its refusal reason included |
| Refreshing.Refresh | internal/curate/refresh.go:200-230 | The label goes before the push and before a refusal; a refused pull request carries none; a failed strip pushes nothing |
| Refreshing.PassOrderSorts | internal/curate/refresh.go:98-102 | The pass visits exactly the listed pull requests, labelled ones first |
| Refreshing.RebuildLosesNothing | internal/curate/refresh.go:237-249 | Rebuildable holds exactly when the head is here and fully listed, every commit is the bot's and the change is one markdown entry beside the two log files |
| Queueing.Risks | internal/curate/risk.go:64-82 | Exactly the risks that apply, riskiest first; empty only for a held fix nothing stands against |
| Queueing.EntryThreats | internal/curate/risk.go:95-113 | An accepted pull request is not read, an unscreenable entry is a hit, a failed read is neither |
| Queueing.ApplyEvidence | internal/curate/resolution.go:136-173 | The branches grant, withdraw or leave exactly as merit and forfeit say, and an error is returned exactly when the write failed or a failed call could have moved the label |
| Queueing.EvidenceDecides | internal/curate/resolution.go:151-172 | With no failure the label afterwards is exactly what the evidence says, and a second check changes nothing |
| Queueing.RunLabelsOnMerit | internal/curate/resolution.go:72-86 | Over a whole run and whatever fails, a label appears only on merit, goes only when forfeited, and never moves on an entry edit or a refused pull request |
| Queueing.SecondRunChangesNothing | internal/curate/resolution.go:55-88 | With no failure no unaccepted flagged or failed pull request keeps the label, and a second run on the same evidence changes nothing |
| Queueing.Scan | internal/curate/resolution.go:72-86 | One listing visits exactly the pull requests not seen before, each on the labels it started with |
| Queueing.RunOnEvidence | internal/curate/resolution.go:55-88 | A run visits every solved or runlore pull request that was not refused exactly once, and a failing listing cuts it short cleanly |
| Queueing.RunOnResolution | internal/curate/resolution.go:192-220 | Without evidence, exactly the solved, unlabelled, unrefused pull requests that are accepted or resolved are labelled |
| Queueing.Run | internal/curate/resolution.go:55-88 | A pull request the rebuild pass refused is never touched later in the run, whatever fails in either part; a failed listing before the rebuilds stops the run |
| Policies.GateIsServerAuthoritative | internal/action/policy.go:56-82 | What passes as executable is a known op with the registry's safety, inside the envelope, whatever the proposal claimed |
| Policies.KeptIsReviewed | internal/action/policy.go:41-54 | Every kept action carries derived safety and violates nothing |
| Policies.ReviewSplits | internal/action/policy.go:41-54 | Every proposal is surfaced or withheld, never both and never dropped, and withheld for what it violates |
| Policies.Review | internal/action/policy.go:41-54 | Kept and withheld are the compliant proposals and the others with their reasons, in order; a disabled policy surfaces nothing |
| RateLimiting.WindowBound | internal/action/auto.go:164-180 | Over every sequence of calls, any half-open interval of one window holds at most the maximum of granted slots, though the clock is read twice |
| RateLimiting.SpacedBoundsCount | internal/action/auto.go:164-180 | Grants a maximum apart in order are at least a window apart in time, which bounds every interval |
| RateLimiting.GrantsExactly | internal/action/auto.go:167-179 | A slot is granted exactly when fewer than the maximum of all slots ever granted lie after the cutoff |
| RateLimiting.ReserveKeeps | internal/action/auto.go:164-180 | A reservation keeps that spacing even though compaction forgets the old grants |
| RateLimiting.Window.TryReserve | internal/action/auto.go:164-180 | The reservation on the slice refines the specification and says whether a slot was granted |
| RateLimiting.Window.Compact | internal/action/auto.go:167-174 | In-place compaction keeps exactly the times after the cutoff, in order |
| RateLimiting.Window.Push | internal/action/auto.go:178 | Append keeps the slice and adds one time |
| AutoGate.OnlyCleanActionsRun | internal/action/auto.go:79-150 | In every interleaving, with a policy set, what ran is a known reversible op inside the envelope, confident enough, and the last step at which it read the kill-switch saw it released |
| AutoGate.ReadAtRecheck | internal/action/auto.go:105-111 | An action past the second read made that read at a step of its own, saw the switch released, and read it no more |
| AutoGate.SlotsAreExecutions | internal/action/auto.go:123-132 | Per action, slots granted equal executions plus the one on its way |
| AutoGate.OneTruthfulRecord | internal/action/executor.go:46-54 | Each finished action has exactly one audit record, and its decision is the one a step of the run took: executed or failed as the execution went, denied as the envelope refused, dry-run or skipped as that gate stopped it |
| AutoGate.DecidedIff | internal/action/auto.go:84-149 | An action stands decided in one way exactly when a step of the run decided it that way, for the reason that decision names |
| AutoGate.PauseStops | internal/action/auto.go:105-111 | While the kill-switch stays engaged, nothing that had not passed its second read runs |
| AutoGate.UnreviewedIrreversible | internal/action/auto.go:93-96 | Exactly when an irreversible op that skipped Review would reach the executor: the first gate reads the proposal's own claim |
| AutoGate.Auto.RunOne | internal/action/auto.go:79-150 | The program's order of gates extends the run it is in, with the kill-switch thrown in between, writes one record of its outcome, and calls it executed exactly when the execution worked |
| AutoGate.Auto.FirstGate | internal/action/auto.go:84-103 | The first switch stops an action for the same reason as the machine |
| AutoGate.Auto.TakeSlot | internal/action/auto.go:126-130 | The slot is reserved last and burnt by no refused action |
| AutoGate.Auto.Execute | internal/action/executor.go:46-54 | The audited executor runs the action and records what happened |
| AutoGate.Auto.SetPaused | internal/action/auto.go:60-63 | Pause and Resume set the switch and nothing else |
| Approving.ExecutedOnceWithinPolicy | internal/action/approvals.go:97-125 | In every interleaving an id is executed at most once, claimed inside its TTL, with derived safety and no violation |
| Approving.RejectIsFinal | internal/action/approvals.go:128-136 | After a rejection that found its entry, the id is never pending or executed again |
| Approving.DeniedIsConsumed | internal/action/approvals.go:103-115 | A claim the policy denied is never pending or executed again |
| Approving.HistoryGrows | internal/action/approvals.go:62-144 | Claims keep their place, a denied one stays denied, rejections stand, and what was claimed or rejected never becomes pending |
| Approving.RegisteredIsClaimable | internal/action/approvals.go:62-68 | Whatever else happens short of another claim or a rejection, a registered id can be claimed exactly until its TTL has passed, with the action as registered |
| Approving.Approvals.ClaimEntry | internal/action/approvals.go:98-109 | An entry is claimed exactly when it is pending and inside its TTL, and then removed |
| Approving.Approvals.Approve | internal/action/approvals.go:97-125 | What is sent to the executor is the claimed action with derived safety, only inside the envelope; a denied claim is removed all the same |
| Approving.Approvals.RejectEntry | internal/action/approvals.go:128-136 | Rejection removes a pending entry and errs on any other id |
| Approving.Approvals.RegisterAction | internal/action/approvals.go:62-68 | A registered action can be claimed as given until its TTL has passed and not after, and every other entry is untouched |
| Approving.Approvals.ListPending | internal/action/approvals.go:81-90 | Listing drops exactly the expired entries, each by its own clock reading, and returns the rest |
| Audit.WalkIffChain | internal/audit/audit.go:207-234 | Verification succeeds exactly on files of readable records that form a chain, and yields their tail |
| Audit.SameTailSameChain | internal/audit/audit.go:202-234 | Two chains that end in the same hash are the same chain, whatever their lengths |
| Audit.TamperEvident | internal/audit/audit.go:202-234 | Two files that verify to the same hash hold the same records |
| Audit.PrefixVerifies | internal/audit/audit.go:207-234 | Every prefix of a verified log verifies: truncation is not detected |
| Audit.OpenAgreesWithOpenVerified | internal/audit/audit.go:94-116 | Open and OpenVerified seed the same hash from any verified file |
| Audit.AppendVerifiesIff | internal/audit/audit.go:132-157 | For every verified log, one whose last line is unfinished included where that line joined with the record does not parse: it stays verified by an append if and only if it ends in a newline, the record chains from its tail and its line is under 1 MiB |
| Audit.StepKeepsGood | internal/audit/audit.go:132-157 | A clean append or a reopening keeps the log verified and the logger at its tail, and adds exactly its record |
| Audit.RunsStayVerifiable | internal/audit/audit.go:66-157 | After every run of clean appends and reopenings the file verifies and holds exactly the logged bodies in order |
| Audit.TailMoves | internal/audit/audit.go:141-155 | No append leads back to a hash the log has ended in |
| Audit.SyncFaultBreaksNextAppend | internal/audit/audit.go:145-155 | After a failed fsync the file still verifies and a reopen heals the logger, but the next append without one breaks the chain |
| Audit.TornWriteIsRefused | internal/audit/audit.go:145-147 | After a write torn inside the record OpenVerified refuses the file while Open seeds the old tail |
| Audit.TornWriteJoinsTheNext | internal/audit/audit.go:145-147 | The next append joins the fragment on one line, and if that does not parse the log does not verify |
| Audit.AppendJoinsIff | internal/audit/audit.go:132-157 | A record written after an unfinished line joins it, and the log stays verified if and only if the two together are a short record that chains from where the unfinished line did |
| Audit.TornAtTheNewline | internal/audit/audit.go:145-147 | After a write torn just before the newline the file verifies and both ways of opening it go on from the new record, but the next append, clean by itself, joins that line and the log verifies no more |
| Audit.BrokenStaysBroken | internal/audit/audit.go:207-234 | Nothing appended mends a log that does not verify |
| Audit.VerifyChain | internal/audit/audit.go:207-234 | The loop over lines verifies exactly readable chains and returns their tail |
| Audit.LastHash | internal/audit/audit.go:170-194 | The scan returns the last non-empty hash, skipping what does not parse |
| Audit.Logger.Log | internal/audit/audit.go:132-157 | Log's effect on the file and on `lastHash`, for each fault |
| Deduping.Jaccard | internal/curate/dedup.go:142-154 | Counting shared tokens gives intersection over union |
| Deduping.SimilarityLaws | internal/curate/dedup.go:142-154 | Similarity is symmetric, between 0 and 1, and 1 exactly for equal non-empty sets |
| Deduping.Cluster | internal/curate/dedup.go:56-75 | The nested loops build a star forest that is maximal, each duplicate under the first unmarked one it duplicates |
| Deduping.ClusteringIsUnique | internal/curate/dedup.go:57-75 | That contract determines the clustering |
| Deduping.MarkedIsADuplicate | internal/curate/dedup.go:55-75 | What is marked is an unprotected, non-exempt duplicate of a lower-numbered canonical one that is not marked |
| Deduping.DuplicateIsSymmetric | internal/curate/dedup.go:111-118 | Being duplicates does not depend on which of the two is looked at first |
| Deduping.NothingMissed | internal/curate/dedup.go:62-74 | Two candidates left unmarked are duplicates, either way round, only if the higher-numbered is protected |
| Deduping.Run | internal/curate/dedup.go:27-88 | Exactly the marked ones whose comment and close succeed are closed |
| Sweeping.CloseStale | internal/curate/lifecycle.go:128-164 | Exactly the unprotected pull requests of known age past the limit that are no entry edit are closed, comment first |
| Sweeping.Suppressed | internal/curate/suppression.go:61-84 | The set holds each rejected fingerprint with its newest rejection and its reason, and no other |
| Sweeping.CloseRedrafts | internal/curate/suppression.go:126-160 | Exactly the unprotected pull requests with a suppressed marker are closed |
| Calibrating.OverlapIsNaN | internal/curate/retirement.go:78-90 | For a validated configuration an entry is a candidate of both passes exactly when nothing else spares it and its factor is not a number |
| Calibrating.DisjointIff | internal/config/config.go:2718-2738 | No ledger makes an entry a candidate of both if and only if the effective prior is finite and not a negative even integer at or below minus the observation bar |
| Calibrating.NaNFactorCollides | internal/outcome/ledger.go:1453-1457 | The factor is not a number only for such priors |
| Calibrating.WitnessOverlaps | internal/curate/revalidation.go:109-118 | Every such prior has a ledger entry both passes propose |
| Calibrating.PositivePriorIsDisjoint | internal/config/load.go:270-314 | A positive finite prior, the default among them, keeps the passes disjoint |
| Calibrating.PriorIsNotValidated | internal/config/config.go:2692-2717 | A prior of -2 validates, and an entry recalled twice and resolved once is then proposed by both |
| Proposing.RunRetirement | internal/curate/retirement.go:65-135 | The pass proposes its candidates in order against the listings taken at the start, and nothing when a listing fails |
| Proposing.RunRevalidation | internal/curate/revalidation.go:100-191 | The same within the free review slots, which only a successful opening spends |
| Proposing.Propose | internal/curate/revalidation.go:151-189 | The loop with its decremented budget and early stop |
| Proposing.SweepAdds | internal/curate/retirement.go:109-133 | A sweep adds only open proposals for candidates it has no open or declined one of, each entry once |
| Proposing.SweepProposesIff | internal/curate/revalidation.go:151-186 | A sweep proposes an entry exactly when fewer candidates before it than the budget opened successfully, no proposal for it is visible, and its own opening leaves a pull request |
| Proposing.RunKeepsInv | internal/curate/lifecycle.go:22-36 | Over every interleaving of sweeps, closing passes and humans who close, merge and label by hand, a proposal closed unmerged was closed by a human |
| Proposing.RunStaysVisibleIff | internal/curate/lifecycle.go:22-36 | Over every such run no two open proposals the passes can see are of one kind for one entry if and only if no human labels one while another such stands open and labelled |
| Proposing.StepKeepsVisibleIff | internal/forge/github/entryedit.go:99-106 | From a world with no such pair, one step makes one exactly when it is that labelling |
| Proposing.PassesMayClose | internal/curate/lifecycle.go:97-99 | Stale sweep, suppression and dedup, by their own contracts, never close a proposal |
| Proposing.VetoIsFinal | internal/curate/revalidation.go:162-170 | After a proposal that carries its label is declined, no step ever proposes that entry that way again; one that lost its label is no veto, as LostLabels.SkippedIff says exactly |
| Proposing.QueueStaysBounded | internal/curate/revalidation.go:140-189 | Over every run, labelling by hand included, the open revalidations, labelled or not, stay within the larger of the listed ones at the start and the effective maximum, plus the unlabelled ones at the start and one for each opening that failed with its pull request there |
| Proposing.ViewsAddUp | internal/forge/github/entryedit.go:92-100 | The open proposals are those the pass can list and those it cannot |
| LostLabels.StepDoublesIff | internal/curate/retirement.go:109-128 | From a world where no entry has two open proposals of one kind, labelled or not, a step yields a second one if and only if it is a sweep in which some candidate with an open unlabelled one and no visible one is left a slot by the successful openings before it and its own opening leaves a pull request |
| LostLabels.RunStaysSingleIff | internal/curate/retirement.go:109-128 | Over a run no entry ever has two open proposals of one kind if and only if no sweep does that |
| LostLabels.SkippedIff | internal/curate/revalidation.go:159-170 | A candidate that the successful openings before it leave a slot, and whose opening would leave a pull request, is passed over if and only if some proposal for it, open or declined, carries the label |
| LostLabels.LabellingMakesTwo | internal/forge/github/entryedit.go:99-106 | A concrete labelling by hand after which the passes see two open proposals for one entry |
| LostLabels.DeclinedIsProposedAgain | internal/forge/github/entryedit.go:99-106 | A proposal that lost its label and was closed by a human is proposed again by the next sweep |
| LostLabels.SweepExceedsIff | internal/curate/revalidation.go:140-189 | A sweep leaves more open proposals, labelled or not, than the larger of those before it and the effective maximum if and only if for some candidate its opening would leave a pull request, at least as many before it would have as the maximum leaves room for, and fewer before it succeed than there are slots when the sweep starts |
| LostLabels.OpenProposalsAreUnbounded | internal/forge/github/entryedit.go:93-98 | With a maximum of one, one sweep can leave any number of open proposals, none of them listed |
| LostLabels.LabelledSlipExceeds | internal/curate/revalidation.go:173-186 | With a maximum of one, two listed ones are open after a sweep in which one opening failed after its label was on |
| LostLabels.LabelLost | internal/forge/github/entryedit.go:92-107 | An opening can fail with the pull request open and unlabelled |
| LostLabels.UnlabelledIsRepeated | internal/forge/github/entryedit.go:92-100 | The next sweep then opens a second proposal for the same entry |
| Scheduling.ScheduledIsLatest | internal/curate/queueissue.go:90-98 | The instant is on the right weekday and minute, at or before now, less than seven days earlier, and the latest such |
| Scheduling.TruncationIsHarmless | internal/curate/queueissue.go:112 | Dropping a fraction of a second never moves an instant across a scheduled one |
| Calendar.DateOf | internal/curate/queueissue.go:34-36 | The civil date of a day is a real date whose day number is that day |
| Calendar.TextRoundTrip | internal/curate/queueissue.go:34-52 | Formatting an instant and parsing it back gives the instant |
| QueueIssues.MarkerReadsBack | internal/curate/queueissue.go:34-52 | A body that starts with a marker reads back the rewrite instant, truncated to seconds, whatever follows |
| QueueIssues.Find | internal/curate/queueissue.go:129-151 | The issue found is the marked one with the lowest number, and none only when none is marked |
| QueueIssues.Rewrite | internal/curate/queueissue.go:153-199 | A rewrite that takes effect leaves its own marker on the issue the next call finds; other issues are untouched |
| QueueIssues.Run | internal/curate/queueissue.go:102-117 | Run tries exactly when a schedule is set, the listing works and the marker is older than the last scheduled instant or absent |
| QueueIssues.RunNow | internal/curate/queueissue.go:120-126 | RunNow tries whatever the schedule |
| QueueIssues.RunOnForge | internal/curate/queueissue.go:102-117 | On the text the forge holds, a scheduled run that reaches the rewrite and takes effect leaves its own instant as the marker, and any other changes nothing |
| QueueIssues.Compose | internal/curate/queueissue.go:284-333 | However the page is cut, the body starts with the marker and reads back the instant |
| QueueIssues.CallOn | internal/curate/queueissue.go:100-126 | A call of either entry point on the open issues moves the marker they hold as the run theorems say, and one that does not write changes nothing |
| QueueIssues.OneRewriteAPeriod | internal/curate/queueissue.go:100-117 | Over every run of both on the open issues at non-decreasing times, a scheduled rewrite after any other comes only once a later scheduled instant has passed |
| QueueIssues.TriesUntilWritten | internal/curate/queueissue.go:100-117 | A scheduled call tries exactly when nothing was written since the last scheduled instant, so a failed rewrite is retried |
| Rendering.RenderLimit | internal/curate/queueissue.go:290-333 | The body shows the longest prefix of rows within the reserved budget and an exact omitted count, and is within the limit if and only if everything fits or the fixed parts and the largest note do |
| Rendering.SizeIsRight | internal/curate/queueissue.go:314-338 | The note never outgrows the room reserved for it |
| Fingerprints.TokenSet | internal/curator/fingerprint.go:228-249 | The loop and the sort compute the sorted significant words |
| Fingerprints.TokensAreCanonical | internal/curator/fingerprint.go:225-249 | Two texts have the same token list exactly when the same significant words occur in them |
| Fingerprints.TriggerIdentity | internal/curator/fingerprint.go:199-204 | Trigger-keyed fingerprints are equal if and only if ref and trigger agree or one ref spells out the other and the start of its trigger, which a ref free of bars never does |
| Fingerprints.RefsCollideIff | internal/curator/fingerprint.go:199-204 | Two different refs admit colliding triggers if and only if one begins with the other followed by the trigger separator |
| Fingerprints.TriggerIsNotCause | internal/curator/fingerprint.go:199-222 | A trigger-keyed fingerprint equals a cause-keyed one, raw fallback included, if and only if the cause side's ref extends the trigger side's with the separator and the trigger goes on like it; never when the cause side's ref is free of bars |
| Fingerprints.CauseIdentity | internal/curator/fingerprint.go:205-222 | Cause-keyed findings are one incident if and only if their refs agree and their causes have the same significant words, or none and the same text, or one ref spells out the other and the start of its cause |
| Fingerprints.TriggersCollide | internal/curator/fingerprint.go:200-203 | Two concrete findings with different refs and triggers share a fingerprint |
| Fingerprints.TriggerCollidesWithCause | internal/curator/fingerprint.go:200-203 | A concrete trigger-keyed finding and a cause-keyed one share a fingerprint |

## Left out

- Reloading.Catalog.ReloadDelta: no commons root, so the branch that forces a full reload for one is absent and path uniqueness is that of one tree; reloads are serial, as two syncers' reloads are not in the program.
- Reloading.Resolve: ranking and scores are bleve's, so the stable re-sort by score and provenance is absent, which only a commons root makes visible; vector fusion in SearchHybrid is absent.
- Reloading.EmbedWithCache: an embedder that returns fewer vectors than texts, and the cache persisted on disk, are absent.
- Syncing.Syncer.Sync: the git clone, pull and checkout are one outcome, a failure or a head.
- Coalescing.Coalescer.Add: the batch is handed over inside the step, where the program does so after unlocking, so the order of two concurrent hand-overs is not claimed; IsCritical is a field of the alert.
- Refreshing.Once: nobody else writes labels while a pass runs; the one-PR command is absent, and the promotion after a rebuild is a label write that may fail.
- Queueing.Run: the join of contested triggers to pull request numbers, and its error, are absent; the ledger's title join behind IsResolved is one answer.
- AutoGate.OnlyCleanActionsRun: actions came out of Review and their number is fixed at the start; reasons and descriptions are absent.
- Approving.ExecutedOnceWithinPolicy: ids are fresh. A suggestion without an op can be registered and approved; the envelope then checks no target, as in the program.
- Audit.RunsStayVerifiable: records whose fields are not valid UTF-8 do not read back as written, and are outside it.
- Deduping.Run: titles' words are a function of the title; similarity is a real, not a rounded float.
- Calibrating.DisjointIff: floats are reals, infinities and not-a-number, without rounding.
- Proposing.RunKeepsInv: markers of different entries differ and no path spells another's marker; proposals carry no fingerprint; humans close, merge and label a proposal that has no label, but do not take labels off or reopen.
- QueueIssues.Run: the rows, their order, the merged count and the measures are the page's text; the Slack line is absent.
- QueueIssues.MarkerReadsBack: the marker reader accepts the one form RunLore writes, not every RFC 3339 form, and years have four digits.
- Fingerprints.TokenSet: letters, digits, spaces and lower case come from outside; the masks of normalizeText and the resource name normalisation are applied before.
- IncidentKey, Constituents, Summarize, curation guards, recurrence, contested sweeps, notifiers, telemetry, leader election and the HTTP server: easier or foreign.
