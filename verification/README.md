# Call-campaign service: models and proofs

This project models the parts of the call-campaign service where mistakes would be hardest to see,
and proves that they do what the service promises. Three components are covered.

**The work pool.** Agents lease one contact at a time, complete calls, skip, redial and schedule
callbacks; background jobs reclaim leases; review decisions reschedule or close items; imports create items; a
do-not-call outcome closes a number in every campaign; retention deletes finished campaigns. It is modelled
twice.

* `Transactions.dfy` and `TransactionSafety.dfy` take every transaction as an interleaved program over
  committed rows, phone locks, row locks and key locks under READ COMMITTED: each statement reads the latest
  commits, writes appear at commit, locks are held to the end. Do-not-call safety and freedom from deadlock
  are proved for every interleaving of any number of transactions. `TransactionEffects.dfy` proves the other half: a
  transaction that commits has done its work, whatever ran in between.
* `PoolState.dfy` holds the tables as one value with its invariant, and a `Database` class with the tables as
  fields. `WorkRules.dfy` says what each operation means; `WorkService.dfy`, `Leasing.dfy`,
  `ContactImport.dfy`, `Retention.dfy` and `Dispositions.dfy` are the operations themselves, loops and in-place
  updates included, each proved against its rule. `WorkInvariant.dfy` proves that every operation keeps the
  invariant, and `PoolRuns.dfy` draws the conclusions over whole runs: lease ids fence, replays are exact, calls
  end, suppressions last. `Offers.dfy` says what each operation means for the agents (who can take the item next,
  and from when), and `PoolCases.dfy` holds concrete runs from the empty database. `LeaseOrder.dfy`,
  `CompletionEffects.dfy` and `WorkEffects.dfy` restate the answers in terms of the rows' own fields: which item a
  lease takes and in which order, when a call is accepted and which error it meets otherwise, what each operation
  leaves behind.

**Workforce imports.** A file is classified (`ImportClassify.dfy`), its rows are reduced to authorization
requirements and a capped stored footprint (`ImportRows.dfy`, `ImportAccess.dfy`, `UuidText.dfy`), people decide in
two tiers, the rows are applied as their approvers and can be reversed (`Workforce.dfy`, `ImportEffects.dfy`,
`ImportReversal.dfy`, `ImportJobs.dfy`, `JobRuns.dfy`, and a concrete job in `ReversalCases.dfy`). What the rules
decide is restated from the line's cells, the directory's rows and the role rows in `ClassifyEffects.dfy` (which lines
are valid), `CommitEffects.dfy` (which committed rows take effect, and what their targets then are),
`ReversalEffects.dfy` (when a reversal acts, and what it leaves) and `JobGuards.dfy` (who may decide, commit and
reverse). Proved besides: the
footprint and the bulk resolution give the same answers as the row-by-row check, the two-person rule holds over every
run, effects happen once, and a reversal restores exactly what it may restore and never overwrites a newer change.

**Authorization.** Scopes, role grants and one-level delegations (`Authz.dfy`, `Delegations.dfy`,
`Capabilities.dfy`), whom a grant reaches (`ScopeReach.dfy`), and the bulk and reverse queries
(`BulkAuthority.dfy`). Proved: a delegation never enlarges
authority, and each bulk query equals the single check it replaces.

Operations that raise are modelled as a `Result`; an error leaves the database as it was, because the transaction
rolls back. Time is an integer number of seconds read once per operation; identifiers are never reused; a phone
fingerprint is an opaque ordered value and one lock. What other transactions hold when a sequential operation runs
(busy phones, locked rows, a flag, a rate limit) is a parameter.

## What the code does that its comments do not say

The model follows the code in these places.

* `reclaim_expired_leases` does not always restore the pre-lease state, as its docstring says: an item with an
  assigned agent goes to `callback_wait`, any other to `queued`. So a leased delayed retry loses its due order
  (`PoolCases.RetryIsQueued`), and a callback that was skipped into the queue and leased from there becomes the old
  agent's own again (`PoolCases.SkippedCallbackIsKept`). The state is restored exactly for callbacks, and for fresh
  items that no agent keeps (`PoolCases.ReclaimRestoresExactly`, `Offers.ReclaimRestoresIff`).
* The manifest's comment says `retry_wait` and `immediate_redial` are not understood yet; completion handles both,
  and its two late mismatch errors cannot occur (`PoolRuns.LateErrorsUnreachable`).
* The retention comment says `completed_at` is set on every terminal path. A contact imported while its number is
  suppressed has no work item and never gets it, so its campaign is never completed and its data never deleted
  (`PoolCases.SuppressedImportIsStuck` is such a run). That is the only way: an import gets a contact stuck exactly
  if the number is suppressed (`PoolRuns.ImportStrandsIffSuppressed`), being stuck never changes afterwards
  (`PoolRuns.StrandedForever`), and a campaign is complete exactly if every contact has a work item that is completed
  or suppressed (`Retention.CompleteIffWorkedThrough`).
* The two guards of the lease path against a suppressed number can never fire
  (`TransactionSafety.LeaseGuardsNeverFire`).
* The access footprint is not quite a cache of the rows: a job over the cap becomes unreachable for everyone but
  the uploader once it leaves the parsed state, though the cap's comment says such a job is never hidden
  (`ImportAccess.FootprintAgreesWithRows` has the exact condition, `ImportAccess.OverCapJobClosesAfterCommit` a
  job of 10,001 users).
* `visible_jobs` with a limit of zero or less still returns one job.
* The in-file key of a membership row joins two cells with a colon, so a row can be refused as a duplicate that is
  none (`ImportClassify.DifferentPairsCanCollide` gives a file); `ImportClassify.MembershipRefusedIff` says exactly
  when a row is refused for its key.
* Reversing a job is not always possible: it raises, and changes nothing, exactly when the reverser is the user one of
  the rows would disable, strip or appoint, or when a viewer role would be granted again while that flag is off
  (`ImportReversal.ReversalUndoesCommit`). `ReversalCases.QualifiedReverserRaises` is a committed job and a reverser
  who passes every check of the reversal and meets that error. A created user ends up disabled, not absent.

## Model

| member | source | states |
|---|---|---|
| TransactionSafety.NoOpenItemForSuppressedNumber | app/work/service.py:713-761 | in every committed state of every interleaving, a suppressed number has no open work item, and a campaign has at most one item per number |
| TransactionSafety.SuppressedNumberNeverLeasedAgain | app/work/service.py:312-357 | a number suppressed at any point is leased at no later point, through any purge and re-import |
| TransactionSafety.ClosedItemStaysClosed | app/work/service.py:39-39 | a completed, suppressed or cancelled item keeps its state until purged, and a purged one never comes back |
| TransactionSafety.ImportChecksHoldAtCommit | app/imports/service.py:333-377 | what an import read under a phone lock about suppression and enrolment is still true when it commits |
| TransactionSafety.LeaseGuardsNeverFire | app/work/service.py:347-357 | a lease attempt never meets an open item of a suppressed number, on the candidate path or on the resume path |
| TransactionSafety.NoDeadlock | app/db_locks.py:20-38 | no reachable state has a cycle of transactions each waiting for a lock of the next |
| TransactionSafety.SomeTransactionCanProceed | app/imports/service.py:321-340 | whenever transactions are under way, one of them waits for nobody |
| TransactionEffects.UnblockedMoves | app/db_locks.py:20-38 | a transaction that waits for no other one can execute a statement or commit, unless its own row is not in the state it needs |
| TransactionEffects.NeverStuck | app/db_locks.py:20-38 | in every reachable state with unfinished transactions, one of them can go on or is refused by its row |
| Transactions.CommitSafe | app/work/service.py:738-761 | a commit keeps the database free of open items for suppressed numbers, whatever committed since its reads |
| Transactions.MoveKeeps | app/work/service.py:789-801 | every statement of every transaction keeps the lock and program-counter invariant |
| TransactionEffects.DncCompletionSuppresses | app/work/service.py:713-761 | in every interleaving, a do-not-call completion that commits has suppressed its number and closed every open row of it in every campaign, and changed nothing else |
| TransactionEffects.ImportEnrolsAndQueues | app/imports/service.py:321-377 | an import that commits enrols exactly the numbers it added, queues those that are not suppressed, and every number of its file was added or already there when it looked |
| TransactionEffects.CommitDoesItsWork | app/work/service.py:419-981 | every row that a committing lease, call, review decision or reclaim changes makes a move allowed to it from the state the row then has; a lease takes at most one item, a call or decision changes its own |
| Offers.RenewedLeaseLives | app/work/service.py:539-559 | goes through iff the caller holds the lease unexpired; then the lease is good until exactly one period after the renewal, is due for reclaim right after that, and nobody else gains or loses anything |
| WorkEffects.ExpiredTakenBack | app/work/service.py:562-582 | exactly the leased items past their expiry on unlocked rows lose the lease and wait for their keeper, or in the queue if they have none |
| WorkEffects.UserLeasesTakenBack | app/work/service.py:585-606 | the same of exactly the items leased to the user |
| WorkEffects.CampaignWorkSentBack | app/work/service.py:609-646 | exactly the leases and callbacks of the agent in that campaign are queued for everyone; other campaigns and agents keep theirs |
| WorkEffects.SkipsIff | app/work/service.py:957-981 | a skip goes through iff a reason is given and the caller's lease is live; which error otherwise; the third one sends the item to review |
| WorkEffects.ReschedulesIff | app/work/service.py:1092-1112 | goes through iff a reason and a later time are given and the item is in review; which error otherwise |
| WorkEffects.AllowsMoreIff | app/work/service.py:1115-1143 | goes through iff a reason is given, the item is in review and the new ceiling exceeds its attempts |
| WorkEffects.ClosesAsLastCalled | app/work/service.py:1146-1181 | the item and its contact are finished in the name, and with the outcome, of an attempt no other attempt of the item is later than |
| WorkService.ReclaimExpiredLeases | app/work/service.py:562-582 | takes back exactly the expired leases on unlocked rows, counts them, and leaves none |
| WorkService.ReclaimLeasesForUser | app/work/service.py:585-606 | takes back exactly the user's leases on unlocked rows and leaves none |
| WorkService.ReleaseCampaignWorkForAgent | app/work/service.py:609-646 | sends exactly the agent's leases and callbacks of one campaign to its queue, unowned and without due time |
| WorkInvariant.ReleasedKeeps | app/work/service.py:609-646 | afterwards the agent holds nothing in that campaign, and the invariant is kept |
| Offers.SkippedOffered | app/work/service.py:957-981 | after a skip nobody holds the item, and anyone calling in its campaign can take it at once, unless it was the third skip; then nobody can |
| PoolRuns.SkipCeiling | app/work/service.py:957-981 | over any run, whatever reviews decide, at most two skips ever put an item back in the queue, less those it had already |
| Offers.RescheduledOffered | app/work/service.py:1092-1112 | the item can be taken by anyone in its campaign from exactly the chosen time, by nobody as a callback, under its old ceiling |
| Offers.AllowedMoreOffered | app/work/service.py:1115-1143 | the item can be taken by anyone in its campaign at once, and by nobody as a callback |
| Offers.AllowedMoreCalls | app/work/service.py:1115-1143 | its next requeueing call puts it back to work iff the new ceiling leaves room for another, and never errs |
| WorkService.CloseReviewItem | app/work/service.py:1146-1181 | closes an item with the agent and outcome of a latest attempt; refused if it was never called |
| WorkService.SuppressContactEverywhere | app/work/service.py:713-761 | the loop closes every open item of the number in every campaign, with its contact, touches no other row, and suppresses the number |
| WorkService.CompleteWorkItem | app/work/service.py:776-954 | the in-place transaction does exactly what the completion rule says, and rolls back whole on an error |
| CompletionEffects.CompletesIff | app/work/service.py:803-822 | under a new key, accepted iff the caller's lease is live, the outcome exists, is active and of the item's campaign, required notes and a required future callback time are given, callbacks are on where a time is given, and the duration is not negative; which error each failing guard gives |
| CompletionEffects.OldKeyAnswers | app/work/service.py:688-710 | under an old key nothing changes, and the stored attempt answers iff it was about this item |
| CompletionEffects.OrdinaryOutcomes | app/work/service.py:858-929 | where each kind of outcome sends the item, below and at the ceiling, with due time, keeper and lease |
| CompletionEffects.AttemptIsLogged | app/work/service.py:824-856 | one attempt row is added, saying who called, under which key and lease reason, with which outcome; the answer shows the item as it now is and the agent's next step |
| CompletionEffects.CountedOnce | app/work/service.py:856-856 | the attempt counter of the item goes up by one, whatever the outcome |
| CompletionEffects.DncClosesTheNumber | app/work/service.py:713-761 | a do-not-call outcome suppresses the number and closes exactly the open items of it, in every campaign |
| CompletionEffects.DncBlocksTheContacts | app/work/service.py:738-761 | exactly the contacts of those items are blocked, in the caller's name |
| CompletionEffects.OthersStay | app/work/service.py:861-929 | any other outcome touches its own item alone, and its contact iff the item is completed |
| Offers.NextLeasable | app/work/service.py:858-929 | after an ordinary outcome the item waits for exactly these calls: an agreed callback for its agent from the agreed time, a retry for anyone once the delay is over, a requeued one for anyone at once, the last two only below the ceiling |
| WorkInvariant.CompletionKeeps | app/work/service.py:776-954 | a completion keeps the whole invariant and rewrites nothing that is final |
| WorkInvariant.SweepKeeps | app/work/service.py:713-761 | a sweep keeps the whole invariant, contact completion included |
| WorkInvariant.ItemLeased | app/models/work.py:42-47 | a new lease for an agent without one keeps one live lease per agent and lease ids unique |
| WorkInvariant.ItemsMoved | app/work/service.py:562-646 | any number of open items moving among open states keeps the invariant |
| WorkInvariant.LoggedKeeps | app/work/service.py:824-856 | logging an attempt keeps counter equal to attempt rows and one attempt per agent and key |
| WorkInvariant.WorkedOk | app/work/service.py:861-929 | after every outcome the lease fields are set iff leased, a callback has owner and due time, a retry has a due time and no owner, a redial is below the ceiling |
| WorkInvariant.NoLateMismatch | app/work/service.py:888-894 | with well-formed outcomes, a completion past its guards succeeds |
| WorkInvariant.FollowsOn | app/work/service.py:642-646 | what is never taken back composes: lease ids, attempts, closed items, launched campaigns, suppressions |
| Leasing.LeaseNext | app/work/service.py:419-536 | resumes the live lease of a running campaign, else obeys flag and rate limit, else leases a best free item or reports that there is none; terminates |
| LeaseOrder.ResumedOrRefused | app/work/service.py:419-450 | resumes iff the agent has an unexpired lease in an active campaign, and shows that lease; else the flag comes before the rate limit |
| LeaseOrder.GrantGoesInOrder | app/work/service.py:190-300 | a granted item is the agent's free callback due first; failing any, the free due retry of the primary campaign due first, then of highest priority, then oldest; failing any, its free queued item of highest priority, then oldest; and it alone is leased, for one period |
| LeaseOrder.NoWorkMeansNone | app/work/service.py:452-515 | no work is reported only if no due callback of the agent is free, and there is no running primary campaign with a free due retry or queued item |
| Leasing.PickFree | app/work/service.py:454-511 | the query repeated with growing skip sets finds a first free candidate in query order, and none only if none is free |
| Leasing.FirstOf | app/work/service.py:225-229 | the ordered query returns a candidate no other precedes |
| Leasing.LockLeaseCandidate | app/work/service.py:303-357 | succeeds exactly for an unlocked, still matching item of a running campaign and an unsuppressed number; a suppressed one is closed |
| Leasing.Choose | app/work/service.py:454-511 | callbacks before retries before fresh items, the last two from the running primary campaign only |
| Leasing.ActivePrimary | app/work/service.py:130-148 | a current primary assignment that started last |
| Leasing.TakeChosen | app/work/service.py:516-525 | writes the lease, unless the unique index already has a lease of the agent |
| Leasing.LeaseKeeps | app/work/service.py:419-536 | leasing keeps the invariant, one lease per agent included |
| PoolRuns.EventKeeps | app/work/service.py:419-1181 | every operation on work, contacts, campaigns and outcomes keeps the invariant and undoes nothing final |
| PoolRuns.WorkOperationsHappen | app/work/service.py:539-1143 | whatever a renewal, reclaim, release, completion, skip or review does, by its contract, is an event of a run |
| PoolRuns.AnswersHappen | app/work/service.py:419-536 | so is whatever a lease call answers, and closing a reviewed item |
| PoolRuns.CampaignOperationsHappen | app/imports/service.py:286-390 | so is an import, a change of status and a change of assignments |
| PoolRuns.InvariantAt | app/models/work.py:39-98 | the invariant holds in every state of every run |
| PoolRuns.FollowsAlong | app/work/service.py:39-39 | between any two states of a run: closed items unchanged, attempts immutable, counters not lowered, no launched campaign back in draft, its outcomes fixed |
| PoolRuns.SpentForever | app/work/service.py:649-664 | a lease id that is issued and not live is never live again, and nothing ever succeeds on it |
| PoolRuns.LeaseSpentOnce | app/work/service.py:973-975 | at most one completion or skip succeeds on a lease id, and no renewal after it |
| PoolRuns.UseNeedsLease | app/work/service.py:649-664 | a renewal, skip or first completion needs its lease live; the last two end it |
| PoolRuns.ReplayIsExact | app/work/service.py:688-710 | until the attempt is purged, repeating the key for the same item changes nothing and returns the first answer field for field |
| PoolRuns.AnswerIsReplay | app/work/service.py:836-848 | the first answer is what the stored attempt replays to, the recomputed retry time included |
| PoolRuns.ReplayStays | app/campaigns/service.py:628-643 | later changes cannot alter a replay, because a launched campaign's outcomes are fixed |
| PoolRuns.SuppressedNeverLeased | app/work/service.py:713-761 | once suppressed, a number has no open item and is in no lease answer at any later step, purge and re-import included |
| PoolRuns.AttemptCeiling | app/work/service.py:856-920 | without a raised ceiling, at most ceiling minus one minus attempts already made completions put an item back to work |
| PoolRuns.RequeueBelowCeiling | app/work/service.py:876-920 | a completion that requeues counts one attempt and stays strictly below the ceiling |
| PoolRuns.CeilingKept | app/work/service.py:1134-1137 | nothing but a review decision moves an item's ceiling |
| PoolRuns.StrandedForever | app/campaigns/retention.py:37-56 | between any two states of a run, a contact is stuck (no item, not done, its campaign not completed) at the end iff it was at the start, and is then unchanged |
| PoolRuns.ImportStrandsIffSuppressed | app/imports/service.py:356-377 | a number added to a campaign that is not completed gets stuck iff it is suppressed |
| PoolCases.SuppressedImportIsStuck | app/imports/service.py:356-377 | a run from the empty database that ends with an active campaign whose only contact is stuck |
| PoolCases.RetryIsQueued | app/work/service.py:562-582 | a run in which a leased due retry comes back from the reclaim as an ordinary queued item |
| PoolCases.SkippedCallbackIsKept | app/work/service.py:562-582 | a run in which a skipped callback, leased from the queue, comes back from the reclaim as a callback of the old agent |
| PoolCases.ReclaimRestoresExactly | app/work/service.py:562-582 | in any run, a lease granted and at once reclaimed leaves the state as before iff it was granted for a callback, or from the queue for an item no agent keeps |
| Offers.ReclaimRestoresIff | app/work/service.py:562-582 | the same for any database and any call that leases |
| PoolRuns.LateErrorsUnreachable | app/work/service.py:928-929 | in every reachable state a completion past its guards meets neither late mismatch error |
| PoolRuns.InstalledStaysValid | app/campaigns/service.py:476-550 | an installed manifest still validates for launch at any later step, unless a free-form outcome is added |
| ContactImport.Job.Parse | app/imports/service.py:112-226 | every row is classified against the whole file before it, and the counters count the classes; without a campaign, a header or a row, or when the reader breaks off, the job fails and at most its full batches stay |
| ContactImport.ClassifyRow | app/imports/classify.py:61-124 | in-file duplicates before in-campaign ones, suppression noted, malformed rows neither |
| ContactImport.CountersAddUp | app/imports/service.py:183-191 | invalid, duplicate and valid rows add up to the total; suppression hits are valid rows |
| ContactImport.CommittedPhonesDistinct | app/imports/service.py:321-328 | the rows a commit takes have strictly increasing fingerprints and are exactly the file's numbers not yet in the campaign |
| ContactImport.Job.Commit | app/imports/service.py:286-390 | commits once after every guard; the same key replays the stored result, another key is refused |
| ContactImport.InsertRows | app/imports/service.py:330-377 | the insertion loop equals adding the numbers one after the other |
| ContactImport.ImportKeeps | app/imports/service.py:330-383 | inserted equals new contacts, new items plus suppressed; at most one contact per number and campaign; no existing row changes; the invariant is kept |
| WorkEffects.ImportEnrols | app/imports/service.py:333-377 | the new contacts are exactly numbers of the file the campaign did not have, each with a fresh queued item, or blocked and without one if suppressed |
| ContactImport.ReimportAddsNothing | app/imports/service.py:350-352 | committing numbers that are already in the campaign changes nothing |
| Retention.DetectCompletedCampaigns | app/campaigns/retention.py:93-110 | marks exactly the complete campaigns, each once, and leaves none to mark |
| Retention.CountdownRuns | app/campaigns/retention.py:59-72 | each campaign the detection marks becomes due for the purge exactly sixty days later, which is when its countdown shows no day left; no other campaign becomes due by it |
| Retention.CompleteIffWorkedThrough | app/campaigns/retention.py:37-56 | an active campaign is complete iff it has contacts and each of them has a work item that is completed or suppressed; then none of its items is live |
| Retention.DeleteCompletedCampaignData | app/campaigns/retention.py:113-181 | the statements together remove exactly the campaign's attempts, items, contacts and the numbers no other campaign names, and count them |
| Retention.WithoutKeeps | app/campaigns/retention.py:113-181 | the deletion keeps every reference sound and leaves suppressions and outcomes alone |
| Retention.DeletingTwiceIsOnce | app/campaigns/retention.py:116-122 | deleting again deletes nothing |
| Retention.WithoutMore | app/campaigns/retention.py:184-205 | deleting campaign by campaign equals deleting them together, in any order |
| Retention.PurgeExpiredCampaignData | app/campaigns/retention.py:184-205 | the purge deletes exactly the completed campaigns past their date, in one or many steps |
| Retention.DaysRemaining | app/campaigns/retention.py:208-216 | the least number of whole days, never negative, after which the deadline is reached |
| Dispositions.CreateDisposition | app/campaigns/service.py:417-459 | succeeds iff the do-not-call flag goes with the protected code, the next action is an allowed one and the code is free |
| Dispositions.InstallStandardDispositions | app/campaigns/service.py:476-550 | succeeds iff the campaign is a draft without policy or outcomes and the delays are in bounds; then adds the seven rows |
| Dispositions.ValidateStandardDispositions | app/campaigns/service.py:553-614 | reports no problem iff the active outcomes are exactly the manifest's, as locked |
| Dispositions.UpdateRetryPolicy | app/campaigns/service.py:617-652 | changes one of the two delays of a draft campaign, within bounds, and nothing else |
| Dispositions.LaunchCampaign | app/campaigns/service.py:357-391 | only with the launch flag on, and only a draft with provenance, contacts and, under the policy, a valid manifest |
| Dispositions.PauseCampaign | app/campaigns/service.py:394-402 | only an active campaign |
| Dispositions.ArchiveCampaign | app/campaigns/service.py:405-414 | an active, paused or draft campaign, never a completed one |
| Dispositions.InstallConforms | app/campaigns/service.py:510-534 | a fresh installation validates, whatever delays were chosen |
| Dispositions.InstalledDelays | app/campaigns/service.py:503-536 | of the installed rows, no answer waits its chosen delay or sixty minutes, unavailable its chosen one or thirty, and no other has a delay |
| Dispositions.RetryUpdateConforms | app/campaigns/service.py:617-652 | a delay change keeps a valid manifest valid |
| Dispositions.CreateKeeps | app/campaigns/service.py:431-440 | a created outcome keeps every stored outcome one that completion handles |
| Dispositions.InstallKeeps | app/campaigns/service.py:503-536 | so does an installation, with one row per code |
| Dispositions.RetryUpdateKeeps | app/campaigns/service.py:628-643 | so does a delay change, and it touches no launched campaign |
| Authz.CoverIsTransitive | app/authz/service.py:205-250 | scope cover is transitive over installation, organization, team and campaign |
| Authz.AncestryOfMoreTeams | app/authz/service.py:205-250 | resolving more team ancestry never changes a cover decision |
| ScopeReach.CoverIsReach | app/authz/service.py:205-250 | a grant covers a target iff it is at the installation, at the organization level without an id, at that very target, or at the organization the active target team belongs to |
| ScopeReach.RoleReaches | app/authz/service.py:268-285 | a capability is held at a target by role iff some current role row granting it reaches the target so |
| ScopeReach.HeldIff | app/authz/service.py:253-303 | with delegations: iff a role row reaches it, or a running delegation row whose delegator's own role rows reach the row's scope does |
| ScopeReach.SeenByRoleIff | app/authz/service.py:357-437 | a campaign is seen by role iff some current role row granting it is universal, at the campaign, at its owning or currently linked team, at its owning organization, or at the organization of such an active team |
| ScopeReach.SeenIff | app/authz/service.py:440-448 | with delegations: iff by role, or a running delegation row shows it so |
| Authz.DelegationNeverEnlargesScope | app/authz/service.py:253-303 | authority at a scope is held iff the user, or a current lender, holds it there by role |
| Authz.DelegationNeverEnlargesVisibility | app/authz/service.py:357-448 | a visible campaign is visible to the user or a current lender by role |
| Authz.FilterIsPerGrant | app/authz/service.py:357-437 | the database filter admits a campaign iff one grant alone admits it |
| Delegations.CreateSucceedsIff | app/authz/delegations.py:98-134 | a delegation is created iff its form is right and each capability is delegable and held by role at that scope |
| Delegations.DelegationService.CreateDelegation | app/authz/delegations.py:82-160 | adds one row or refuses with the first failing guard |
| Delegations.WithdrawalEndsOneRow | app/authz/delegations.py:163-182 | goes through iff the row exists and the caller is its delegator; from then on that row lends nothing, every other row lends what it lent, and repeating it changes nothing |
| Delegations.WithdrawalLeaves | app/authz/delegations.py:163-182 | afterwards a user holds a capability at a scope iff by role or through another row |
| Delegations.NonDelegableOnlyByRole | app/authz/delegations.py:98-134 | over every run a non-delegable capability is held only by one's own role, at any scope and campaign |
| Delegations.NoSelfLending | app/authz/delegations.py:98-100 | over every run nobody lends to themselves |
| Delegations.RevocationIsFinal | app/authz/delegations.py:163-182 | a revoked delegation stays revoked and lends nothing again |
| BulkAuthority.ScopesMatched | app/authz/service.py:306-354 | the chunked bulk answer is the filter of the requests by the single check |
| BulkAuthority.CampaignsMatched | app/authz/service.py:451-467 | the chunked campaign answer is the filter of the ids by the single check |
| BulkAuthority.UsersWithAny | app/authz/service.py:156-202 | the reverse query finds exactly the users the forward check accepts for some listed capability |
| BulkAuthority.SatisfiedAuthority | app/workforce_imports/service.py:458-542 | targets, scopes and campaigns resolved at once are those the manual screens accept one by one |
| UuidText.PrintParses | app/workforce_imports/service.py:427-445 | a printed identifier parses back to itself |
| ImportAccess.StoredRequirementReadsBack | app/workforce_imports/service.py:427-445 | every requirement survives being stored |
| ImportAccess.BuildFootprint | app/workforce_imports/service.py:212-309 | the accumulate-or-over-cap loop stores exactly the distinct requirements, or says there are too many |
| ImportAccess.FootprintAgreesWithRows | app/workforce_imports/service.py:614-662 | access from the footprint equals access from the rows, except exactly for an over-cap job no longer parsed |
| ImportAccess.OverCapCloses | app/workforce_imports/service.py:628-632 | a committed over-cap job shuts out every approver of all its rows |
| ImportAccess.OverCapJobClosesAfterCommit | app/workforce_imports/service.py:628-629 | a job of 10,001 distinct targets, over the real cap, that an approver of all of them reaches while parsed and not once committed |
| ImportAccess.LargerResolutionAgrees | app/workforce_imports/service.py:545-577 | resolving a larger set never changes the answer for a member, the no-role case included |
| ImportAccess.AuthorityOver | app/workforce_imports/service.py:580-594 | the bulk answer over a list is that every requirement holds by itself |
| ImportAccess.CanAccessJob | app/workforce_imports/service.py:638-662 | decides the access rule |
| ImportAccess.VisibleJobs | app/workforce_imports/service.py:670-727 | one resolution over all candidates returns exactly the first accessible jobs, in order |
| Workforce.AssignRoleEffect | app/workforce/service.py:254-311 | a grant leaves exactly the new row open for its key and changes no other entity |
| Workforce.SetLineEffect | app/workforce/service.py:423-472 | a new supervisor supersedes the old line and changes no other entity |
| Workforce.EndMemberEffect | app/workforce/service.py:404-420 | ending a membership clears that pair and no other entity |
| Workforce.OthersLookSame | app/workforce/service.py:254-472 | a change to one entity is seen on no other |
| ImportEffects.ReversalNeverClobbers | app/workforce_imports/service.py:1347-1492 | in any later state a row's reversal acts iff the entity is still what the row produced, then restores it and nothing else; otherwise it changes nothing |
| ReversalEffects.ReversalActsIff | app/workforce_imports/service.py:1347-1492 | in the directory's own rows: a row's reversal leaves things alone exactly when something has touched its effect since, and otherwise raises exactly when it would disable, strip or appoint the reverser, or re-grant a disabled viewer role |
| ReversalEffects.ReversalReverts | app/workforce_imports/service.py:1347-1492 | what the person, membership, role or line is after a reversal that acts |
| ImportReversal.CommitRowEffect | app/workforce_imports/service.py:940-1166 | a committed row changes its target alone, and undoing it at once would bring the old value back |
| CommitEffects.RowAppliedIff | app/workforce_imports/service.py:940-1166 | for each kind, the exact condition, in the directory's own rows, under which a committed row is applied, what its target then is, its outcome, and the one error a row can raise |
| CommitEffects.RowDated | app/workforce_imports/service.py:940-1166 | a row written starts now and is open, a row ended ends now, and a token goes to a created user unless activation is deferred |
| CommitEffects.FileRowApplied | app/workforce_imports/service.py:1282-1318 | each row of a committed file is applied iff it takes effect on the directory as it was before the commit, with new users also free of clashes with users created by earlier rows; after the whole commit its target is what the row says |
| CommitEffects.CommitFailsIff | app/workforce_imports/service.py:1282-1291 | a commit fails as a whole iff some row grants a viewer role not yet held while that flag is off |
| ImportReversal.CommitAllEffect | app/workforce_imports/service.py:1282-1318 | after a whole commit every linked row is undoable to its old value and every other entity is as before |
| ImportReversal.ReverseAllEffect | app/workforce_imports/service.py:1549-1580 | a reversal in any order undoes every tracked row, or raises exactly when one row raises |
| ImportReversal.ReversalUndoesCommit | app/workforce_imports/service.py:1534-1598 | commit then reverse is the identity on every entity that existed before, in any row order; it raises iff some row raises for this reverser |
| ReversalCases.QualifiedReverserRaises | app/workforce_imports/service.py:1428-1466 | a file, parsed, approved and committed, and a reverser qualified by every check whose reversal raises, while anybody else's goes through |
| ImportReversal.CommitGoesThrough | app/workforce_imports/service.py:1282-1318 | with the viewer role enabled, no row can fail the commit as a whole |
| ImportReversal.OutsiderReverses | app/workforce_imports/service.py:1549-1580 | a reverser whom no row concerns meets no error, with the viewer role enabled |
| ImportClassify.ValidRowFits | app/workforce_imports/classify.py:99-543 | a valid row has what its commit relies on |
| ClassifyEffects.RefusedLines | app/workforce_imports/classify.py:90-96 | a refused line becomes a routine invalid row that names nobody; every row keeps what its line asked for |
| ClassifyEffects.UserLines | app/workforce_imports/classify.py:99-226 | when a line of a user file is valid or doubtful, per action, from its cells and the directory, and the row it becomes |
| ClassifyEffects.DeactivationLines | app/workforce_imports/classify.py:229-276 | a deactivation is valid for an active user, doubtful for an inactive one, and high-risk |
| ClassifyEffects.MembershipLines | app/workforce_imports/classify.py:279-354 | valid iff the user and the active team exist and an addition names no member, an end a member; adding a member is doubtful |
| ClassifyEffects.RoleLines | app/workforce_imports/classify.py:357-459 | valid iff user, role, scope and reason are good and an assignment is not held yet, an end is held; assigning a held role is doubtful |
| ClassifyEffects.RoleLineRow | app/workforce_imports/classify.py:357-459 | the row names that user, role and scope, and is high-risk iff it assigns |
| ClassifyEffects.ReportingLines | app/workforce_imports/classify.py:462-543 | valid iff both users exist, differ, the supervisor is active and is not the supervisor already; the last is doubtful |
| ImportClassify.ValidRowsActApart | app/workforce_imports/classify.py:123-129 | valid rows of one file act on distinct entities |
| ImportClassify.HighRiskKinds | app/workforce_imports/classify.py:262-276 | only deactivations and role assignments are high-risk |
| ImportClassify.DifferentPairsCanCollide | app/workforce_imports/classify.py:305-312 | two lines for different users and teams, each valid alone, of which the second is refused when both are in one file |
| ImportClassify.MembershipRefusedIff | app/workforce_imports/classify.py:305-312 | a well-formed membership line is refused for its key iff an earlier line names the same pair, or one id continues the other with a colon and the rest of the team code; otherwise it is judged as if alone |
| ImportClassify.PairKeysCollideIff | app/workforce_imports/classify.py:305-312 | exactly when two membership pairs share a key |
| ImportJobs.ImportJob.Parse | app/workforce_imports/service.py:196-318 | rows, counters and footprint are those of the file, as every later step needs them; an empty, malformed or broken-off file fails and at most its full batches stay |
| JobGuards.ManagesIff | app/workforce/service.py:132-160 | an actor may manage a target iff they could appoint one of the target's current roles at its scope, or the target has none and they may appoint anyone anywhere |
| JobGuards.AppointmentsGoDown | app/authz/capabilities.py:59-99 | which roles may appoint which: appointments only go down the hierarchy |
| JobGuards.RequirementIs | app/workforce_imports/service.py:347-424 | acting on a row needs management of its person, captain appointment in its team, appointment of its role at its scope, or staffing of its campaign; anyone may see a valid creation through |
| JobGuards.EntersIff | app/workforce_imports/service.py:614-662 | a waiting job is entered by its uploader and by whoever may act on all its rows |
| JobGuards.DecidesIff | app/workforce_imports/service.py:804-862 | exactly when a vote is accepted, per tier, in terms of the rows themselves |
| JobGuards.CommitsIff | app/workforce_imports/service.py:1227-1281 | a waiting job can be committed iff the version is current, no row is invalid, and the last vote of each tier it needs is an approval by someone who may still act on all rows of that risk, for the high-risk tier not the uploader |
| JobGuards.ReversesIff | app/workforce_imports/service.py:1534-1548 | a committed job can be reversed once, by someone who may act on all its valid rows, not its uploader if any is high-risk |
| JobGuards.LatestIs | app/workforce_imports/service.py:897-918 | the vote that counts for a tier is its last one, whatever the other tier decided since |
| JobGuards.SelectedInOrder | app/workforce_imports/service.py:1279-1286 | the valid rows are applied once each, in the order of the file |
| JobGuards.OutcomesAre | app/workforce_imports/service.py:1288-1298 | the answer lists exactly the outcomes of the rows that had one, by row number |
| JobGuards.TokensAre | app/workforce_imports/service.py:1288-1300 | the tokens are those of the created users with a workforce id |
| ImportJobs.ClassifyLines | app/workforce_imports/service.py:243-285 | the one-pass loop with its growing key set classifies each line against all lines before it and counts right |
| ImportJobs.ImportJob.RecordDecision | app/workforce_imports/service.py:804-894 | appends one decision with the next version iff every guard passes |
| ImportJobs.ImportJob.CommitJob | app/workforce_imports/service.py:1227-1344 | the row loop inside one transaction equals the commit rule, with both approvals re-checked live |
| ImportJobs.ImportJob.ReverseJob | app/workforce_imports/service.py:1534-1598 | the reversal loop equals the reversal rule, all or nothing |
| ImportJobs.ImportJob.NotifyPendingApprovers | app/workforce_imports/service.py:753-801 | when others are needed, exactly the non-uploaders who can access the job are told |
| ImportJobs.AccessNeedsCapability | app/workforce_imports/service.py:102-102 | the coarse candidate set omits nobody who could reach the job |
| ImportJobs.FailsThrough | app/workforce_imports/service.py:1282-1291 | an error at any row is the error of the whole commit |
| JobRuns.TwoPersonRule | app/workforce_imports/service.py:1259-1288 | a committed job has no invalid row; each high-risk row was applied as a second person, approved and authorized at commit; the rest as the approver of the latest standard decision, authorized at commit |
| JobRuns.CommitsOnce | app/workforce_imports/service.py:1246-1253 | after the commit that took effect, a later one changes nothing, has the same key and outcomes, and no token |
| JobRuns.OperationsHappen | app/workforce_imports/service.py:804-1618 | whatever a decision, commit, reversal or expiry does, by its contract, is an event of a run |
| JobRuns.ReversesOnce | app/workforce_imports/service.py:1543-1546 | a job is reversed at most once |
| JobRuns.VersionsCountUp | app/workforce_imports/service.py:864-873 | decisions are append-only with versions one to n |
| JobRuns.CommittedStays | app/workforce_imports/service.py:1320-1329 | a committed job keeps its records, approvers and decisions |
| JobRuns.ExpiredIsFinal | app/workforce_imports/service.py:1605-1618 | an expired job has no rows, and nothing is decided, committed or reversed on it again |
| JobRuns.FileTasks | app/workforce_imports/classify.py:99-543 | the valid rows of a file meet all a commit and its reversal rely on, against any later directory |
| JobRuns.FileRoundTrip | app/workforce_imports/service.py:1227-1598 | parse, commit, reverse at once in any order: every entity that existed before looks as it did, or a row raises and nothing changes |
| JobRuns.FileRoundTripGoesThrough | app/workforce_imports/service.py:1227-1598 | commit and reversal both go through for a reverser outside the job, and give every old entity its old value |

## Left out

- ImportReversal.CommitRowEffect: campaign-assignment rows are not modelled in classification, commit and reversal; ending an assignment also releases work items, which a reversal does not restore, and a re-assignment can fail on capacity. Their access requirements are modelled.
- ImportJobs.ImportJob.Parse: files of campaign-assignment rows, for the same reason.
- TransactionSafety.NoOpenItemForSuppressedNumber: the interleaved model carries do-not-call safety and freedom from deadlock; one live lease per agent, one attempt per key and fencing are proved of whole operations in sequence, where the unique indexes and the row lock put them.
- Concurrency of `release_campaign_work_for_agent`: rows locked by others are skipped, so only the sequential result over unlocked rows is stated.
- TransactionSafety.NoDeadlock: covers import commits, completions, leases, skips, renewals, reclaims and reviews; locks on assignment and campaign rows, foreign keys and unique-index waits are not part of the graph, and neither is the retention purge, which may take the item rows of several campaigns in one transaction.
- Two different numbers whose lock ids collide share a lock; the model gives every number its own.
- ImportClassify.ValidRowFits: white space is the ASCII kind only, and cells arrive stripped; a team code used by two organizations resolves to one team, as the lookup returns one.
- JobRuns.CommitsOnce: concerns the database; activation links and their mail are not modelled beyond who would get a token.
- ImportReversal.ReversalUndoesCommit: about the workforce view; the time a user was last disabled, sessions and leases ended by a deactivation are not restored and not part of it.
- `version` counters, audit events, notifications other than who is asked to approve, statistics, gamification, sessions, tokens: side records.
- Encryption, fingerprints, phone parsing, file storage and reading: foreign calls; a row arrives with its phone already parsed or not.
- Assigning teams and agents to campaigns, transfers and capacity checks: the assignment table is an input that may change at any step.
- The directory listing and search, masked callback and review lists, and the capability check through `_scope_covers`: query plumbing.
- Corrections of call attempts: no operation writes them.
- Reading the clock several times within one operation: taken as one instant.
