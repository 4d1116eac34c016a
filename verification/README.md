# Verification of the help desk's hard core

A Dafny model of the parts of the product where state must agree with other
state whatever interleaves, and proofs of what they promise. `dafny verify
dfyconfig.toml` checks everything.

What runs at the same time is modelled as a machine: a state, the atomic actions
any process may take next (`Enabled`, `Apply`), invariants that every action
keeps, and theorems over every run (`Runs`, `After`). Code that works step by
step is a class whose methods take those actions one at a time on the shared
state, with everyone else free to act in between (`Pause`), and whose contracts
say exactly what they did (`Own`, `Did`, `Steps`) and what holds afterwards. A
crash is an action like any other; which calls of a method fail, and how storage,
Redis or another request answers, are its arguments, so that its answers are
stated exactly in them. The states a contract speaks of are those the run was in
when the method got there (`Took`, `Stood`), not states of its own choosing.

| part | files |
|---|---|
| the outbox relay: exactly-once drains over a log with a snapshot horizon, poison events, the pending flag, the sweep | `LogOrder`, `Outbox`, `Drains`, `Delivery`, `Transience`, `Cluster`, `Relay`, `Requests` |
| tenant isolation: pooled connections, a transaction-local setting, row-level policies, nested scopes | `TenantIsolation`, `TenantViews`, `TenantClient` |
| membership changes under the organization's lock, next to code that does not take it | `Members`, `MemberRuns`, `MembersService` |
| attachments: quota, rows and stored objects | `Attachments`, `AttachmentRuns`, `AttachmentsService` |
| the API token verifier's caches | `ApiTokens` |
| the category tree, session cookies, serialised statements | `CategoryTree`, `RecentList`, `Cookies`, `SerialAdapter` |
| job ids, durations, ticket numbers | `Text`, `JobIds`, `Digits`, `Durations`, `TicketNumbers` |
| who may read a ticket and who hears of it | `Authorization`, `FanOut` |

## What the proofs found

Where a promise does not hold as written, the model keeps the code as it is, and
there is a lemma with the run that breaks it beside one that says exactly when
it holds.

- The waits of 2, 8 and 32 s between attempts (`apps/api/src/events/relay.ts` lines 13-17) hold for one
  drain at a time. Drains that overlap record three failures at one instant;
  a wait is skipped exactly when a failure is counted while the consumer still
  backs off, and only the last wait is certain
  (`Delivery.OverlappingDrainsSkipTheWaits`, `Delivery.SpacedKeptIff`,
  `Delivery.ParkedAfterTheLastWait`).
- "One waiting drain per tenant" (`apps/api/src/events/drain-requests.ts` lines 25-27) is broken by a
  flag that expires or is undone beside a waiting drain and by a job tried again,
  and by nothing else (`Drains.OnePlaceKeptIff`, `Drains.ExpiryMakesASecondPlace`).
- Two overlapping calls of `complete` for one upload can leave a READY row whose
  object is gone: the second takes the first's success for the sweep's work
  (`apps/api/src/attachments/attachments.service.ts` lines 149-153). So can an ingest whose commit succeeded
  without its answer arriving (`AttachmentRuns.OverlappingCompletionsLoseTheObject`,
  `AttachmentRuns.UnheardIngestsLoseTheObject`). `AttachmentRuns.ReadyLostIff` says
  by which earlier steps these are the only ways.
- Adding a member to a team locks the team and not the organization
  (`apps/api/src/teams/teams.service.ts` lines 83-97), so a removed member can end up in one; accepting an
  invitation takes no organization lock either, so an outsider claimed while
  being removed keeps a seat (`MemberRuns.RemovedMembersCanBeInTeams`,
  `MemberRuns.ClaimedSeatsCanBeLost`).
- An invitation may carry a team with the role REQUESTER
  (`packages/contracts/src/memberships.ts` lines 67-72), and accepting it puts the
  requester in the team (`MemberRuns.InvitedRequestersAreInTeams`). This and the
  overtaken addition are the only two ways (`Members.TeamsKeptIff`).
- `inTreeOrder` ends for any parent links; `categoryPath` does not end for a
  category whose parents lead into a circle, and for no other
  (`CategoryTree.PathEndsIff`, `CategoryTree.TwoInACircle`). Its callers in
  `apps/app` all pass categories out of `inTreeOrder`, and for those it ends
  (`CategoryTree.ListedCategoriesHavePaths`).
- A cookie call with a refresh cookie alone, or one that clears an access cookie
  alone, would leave a pair off the recent list (`Cookies.BudgetKeptIff`).
- `formatTicketNumber` is read back below ten to the ninth and from there on not
  at all; an earlier bracketed text of no known type hides a later number from
  the subject search (`TicketNumbers.ParseFormat`, `TicketNumbers.EarliestAnswers`).
- A job id does not check its organization part; it stays collision-free but for
  an organization called "platform" (`JobIds.SameIdIff`).

## Model

| member | source | states |
|---|---|---|
| `Outbox.Waits` | apps/api/src/events/relay.ts:13-20 | the wait after the nth failure is 2, 8 and 32 s, and four times as long after each further one |
| `Outbox.SettledStays` | apps/api/src/events/repositories/outbox.repository.ts:74-83 | a transaction below the snapshot horizon stays settled: nothing of it can still commit |
| `Outbox.NewEventsComeLater` | apps/api/src/events/repositories/outbox.repository.ts:84-91 | whatever commits later lies after every place already read below the horizon |
| `Outbox.BatchStays` | apps/api/src/events/repositories/outbox.repository.ts:84-91 | a batch read below the horizon stays the gap-free next stretch of the log until the cursor moves |
| `Outbox.ExactlyOnceStays` | apps/api/src/events/relay.ts:166-206 | every action of any worker or writer keeps: the events at or before the cursor are exactly those whose committed effects were applied once, in log order, plus those parked, and no event is both |
| `Outbox.FailureInvStays` | apps/api/src/events/repositories/outbox.repository.ts:123-145 | `failures > 0` means the blamed event is the next unread one and the count is the number of its recorded failures; kept by every action |
| `Outbox.DeadInvStays` | apps/api/src/events/relay.ts:183-187 | an event is parked only after three or more recorded non-transient failures of that same event, and after the last one's wait |
| `Outbox.CursorOnlyAdvances` | apps/api/src/events/repositories/outbox.repository.ts:114-121 | no action moves the cursor back or takes an event out of those passed |
| `Outbox.LockHolderIsAlone` | apps/api/src/events/repositories/outbox.repository.ts:36-46 | while one worker holds the advisory lock nobody else moves the cursor or takes the lock |
| `Outbox.WorkersInvStays` | apps/api/src/events/relay.ts:166-206 | what each worker has read, placed or handled stays true of the shared state, whoever acts in between |
| `Outbox.InvStays` | apps/api/src/events/relay.ts:166-206 | all the relay's invariants are kept by every action: locks, reads, handler failures, transient failures, crashes, commits |
| `Drains.FlagStandsForADrain` | apps/api/src/events/drain-requests.ts:39-63 | the pending flag is never set without a setter about to enqueue or a job that has not started, unless the action loses the request |
| `Drains.NothingForgotten` | apps/api/src/events/drain-requests.ts:39-63 | every unread event keeps a drain to come, or one running that will see it, through every action that loses no request |
| `Drains.OnePlaceKeptIff` | apps/api/src/events/drain-requests.ts:25-28 | an action keeps one waiting drain at most, under its flag, exactly when it is not an expiry or an undo beside a waiting drain, nor a job tried again beside one or with no flag set |
| `Drains.ExpiryMakesASecondPlace` | apps/api/src/events/drain-requests.ts:42 | a flag that expires before its job starts lets a second job into the queue |
| `Drains.EveryRunIsSafe` | apps/api/src/events/relay.ts:110-206 | after every interleaving of any number of drains, requests, sweeps and writers the relay's invariants hold |
| `Drains.NoLostWake` | apps/api/src/events/drain-requests.ts:39-63 | after every run in which no request is lost, no flag stands without its drain and no unread event is forgotten |
| `Drains.QuietMeansDelivered` | apps/api/src/events/drain.processor.ts:50-58 | when nothing is pending or running, the committed events are exactly those applied or parked |
| `Drains.SweepCatchesUp` | apps/api/src/events/outbox-sweep.ts:30-42 | whatever was lost, a sweep past an expired flag leaves nothing forgotten |
| `Delivery.EachEventOnce` | apps/api/src/events/relay.ts:166-206 | over every run, an event is applied at most once, parked at most once, and never both |
| `Delivery.EffectsAreFinal` | apps/api/src/events/relay.ts:188-190 | no action ever takes back or reorders an effect that committed |
| `Delivery.AfterCommitAtMostOnce` | apps/api/src/events/relay.ts:212-218 | after-commit work runs at most once for each committed step and never for one rolled back |
| `Delivery.MeasureNeverRises` | apps/api/src/events/relay.ts:119-164 | one action at a time, (unread events, failures left) never rises but by a writer's commit, and falls with every advance, every parking and every failure counted up to three |
| `Delivery.MeasureAlong` | apps/api/src/events/relay.ts:119-164 | along any run of any processes in which nothing new is committed, the measure never rises |
| `Delivery.NoEventBlocks` | apps/api/src/events/relay.ts:119-164 | drains that lower the measure are at most four for every unread event and three more, and after that many nothing is unread |
| `Delivery.StuckEventIsParkedNext` | apps/api/src/events/relay.ts:183-187 | a step over a stuck event parks it exactly when it has failed three times, and hands it over otherwise |
| `Delivery.SpacedKeptIff` | apps/api/src/events/repositories/outbox.repository.ts:123-145 | an action keeps every retry behind the wait before it exactly when it does not count a failure while the consumer still backs off |
| `Delivery.SpacedAlone` | apps/api/src/events/relay.ts:18-20 | with one drain at a time every retry waits out the failure before it, over whole runs |
| `Delivery.ParkedAfterAllWaits` | apps/api/src/events/relay.ts:18-20 | where failures are spaced, parking is at least 2 + 8 + 32 s after the first failure |
| `Delivery.WaitsAreServed` | apps/api/src/events/relay.ts:18-20 | over every run with one drain at a time, each parked event waited all three times |
| `Delivery.ParkedAfterTheLastWait` | apps/api/src/events/relay.ts:173-176 | whatever overlaps, parking is at least 32 s after the last failure |
| `Delivery.OverlappingDrainsSkipTheWaits` | apps/api/src/events/relay.ts:137-140 | three drains that read an event before any records its failure take the count from none to three at one instant |
| `Transience.TransientIff` | apps/api/src/events/relay.ts:22-35 | an error is transient exactly when a chain of causes leads to a known code at most four down or a `TransientFailure` at most five |
| `Cluster.OthersLeaveMe` | apps/api/src/events/relay.ts:166-206 | along any run, other processes leave a process's step and role where they were |
| `Cluster.GrewAlong` | apps/api/src/events/repositories/outbox.repository.ts:84-121 | along any run the log, the passed events, the clock and the dead letters only grow |
| `Relay.ReadBelowHorizon` | apps/api/src/events/repositories/outbox.repository.ts:84-100 | the loop returns the first `take` settled events after the cursor, in order, none skipped |
| `Relay.EventRelay.Open` | apps/api/src/events/relay.ts:171-179 | but for a fault of the database as it locks: busy exactly on a held lock, backing off exactly while the last failure's wait lasts, and otherwise on, with one event at a time once something failed; the lock and the cursor are those of the run as the worker got there |
| `Relay.EventRelay.Read` | apps/api/src/events/repositories/outbox.repository.ts:84-100 | the first settled events past the place, none skipped; held back exactly when they come short and something committed lies past them; short and not held back means nothing is left past it |
| `Relay.EventRelay.Step` | apps/api/src/events/relay.ts:166-206 | one transaction moves the cursor past exactly the events it applied or the one it parked, or past none, and ends exactly as the lock, the cursor, the read and its faults say |
| `Relay.EventRelay.RecordFailure` | apps/api/src/events/repositories/outbox.repository.ts:130-145 | the same event is counted up, another starts at one, and a passed or locked one is not counted |
| `Relay.EventRelay.AfterCommit` | apps/api/src/events/relay.ts:212-218 | the committed step's after-commit work is run, and its failure changes nothing |
| `Relay.EventRelay.Turn` | apps/api/src/events/relay.ts:125-163 | what one turn of the loop does in the database, action by action, and what it leaves behind for each kind of step |
| `Relay.EventRelay.Drain` | apps/api/src/events/relay.ts:119-164 | turn by turn: a whole batch first; on to single events exactly when that batch failed with nobody to blame, and on from one to the next exactly when it got through and the batch's worth is not; it ends as the last turn's step says, with exactly the events its turns applied and parked counted, no more than `batch`; a quiet outcome means everything committed at its last read is passed; and while nothing new is committed, a drain that drained or blamed an event lowers (unread events, failures left), but for a failure not counted because another drain holds the lock, or counted beyond three when the drain began at three |
| `Relay.WhyTurnsFail` | apps/api/src/events/relay.ts:166-206 | a turn ends in a transient failure, in the relay's own, or in an event's, exactly by which fault struck and what had been read by then; one event read is blamed, several are not |
| `Relay.WhyTurnsGoWell` | apps/api/src/events/relay.ts:168-201 | busy, backing off, idle, parked or handled, each exactly by the lock, the wait, the read and the count |
| `Relay.FailedBatchesGoOneByOne` | apps/api/src/events/relay.ts:134-163 | a drain goes on past its first turn exactly when several events were read and failed for no transient cause; every later turn locks for one event, and the drain ends by a blamed event, a fault or a wait, or with the batch's worth through |
| `Requests.DrainRequests.Request` | apps/api/src/events/drain-requests.ts:39-58 | never throws; refused, finding a job to come, adding one, or undoing its flag, exactly by Redis's answers and by the flag as it was looked at, in that order of shared actions |
| `Requests.DrainRequests.Started` | apps/api/src/events/drain-requests.ts:60-63 | the flag is down before the drain reads |
| `Requests.DrainProcessor.Process` | apps/api/src/events/drain.processor.ts:38-58 | one drain, and a request after it exactly when its outcome is not a caught-up one, for which all that had committed before the job was taken is passed; a throw asks for nothing |
| `Requests.OutboxSweep.Sweep` | apps/api/src/events/outbox-sweep.ts:30-42 | asks exactly when the consumer had anything unread as it looked; otherwise everything committed at the start is passed |
| `TenantIsolation.FailsClosedIff` | packages/database/src/rls.ts:17-24 | the policy shows nothing whatever the table holds exactly when the setting is missing or '' |
| `TenantIsolation.IdleConnectionsSeeNothing` | packages/database/src/tenant-client.ts:46-53 | a connection back in the pool admits no row to read or write: no transaction inherits an earlier one's tenant |
| `TenantIsolation.StatementsRunAtHome` | packages/database/src/tenant-client.ts:60-84 | every statement runs on a connection set to its own scope's organization, whatever ran there before |
| `TenantIsolation.NothingPassesThrough` | packages/database/src/tenant-client.ts:73 | the pass-through branch is never taken on a connection without a tenant |
| `TenantIsolation.NextStaysSound` | apps/api/src/prisma/prisma.service.ts:80-85 | the open transaction a scope uses was opened in that very scope, through nesting, joins and crossings |
| `TenantIsolation.InvStays` | apps/api/src/prisma/prisma.service.ts:132-170 | every step of every request, and its death, keeps the pool clean and the scopes sound |
| `TenantIsolation.WritesAreSeen` | packages/database/src/rls.ts:15-24 | from then on a transaction sees its statement's deletes gone and rows there, each admitted by the policy; a refused or aborted statement changes nothing |
| `TenantIsolation.StatementAnswers` | packages/database/src/rls.ts:15-24 | a statement answers: nothing in an aborted transaction, a refusal exactly when a row it puts is not its tenant's, and otherwise the query's own answer on the rows it sees with its transaction's writes over them |
| `TenantIsolation.OverlayAt` | packages/database/src/tenant-client.ts:106-113 | key by key, what a transaction sees: its own last write where it made one, the table's row elsewhere |
| `TenantIsolation.HasTxIff` | apps/api/src/prisma/prisma.service.ts:80-85 | a sound scope with a transaction in its store may always use it: none there was opened for another tenant |
| `TenantViews.CommitsAtHome` | packages/database/src/rls.ts:15-24 | what a request commits lies in its own scope's organization |
| `TenantViews.OwnStepIsPrivate` | packages/database/src/tenant-client.ts:60-114 | an organization's request moves as it would on a database holding only that organization's rows |
| `TenantViews.OthersStepIsInvisible` | packages/database/src/tenant-client.ts:60-114 | nothing another organization's request does changes what an organization observes |
| `TenantViews.EveryRunIsClean` | packages/database/src/tenant-client.ts:46-53 | after every run the pool is clean and every scope sound |
| `TenantViews.RunsRefineThePrivateDatabase` | packages/database/src/tenant-client.ts:60-114 | over every run, an organization's rows, answers and scopes are those of its private database after its own steps alone |
| `TenantViews.OrganizationsDoNotInterfere` | packages/database/src/tenant-client.ts:60-114 | two systems that agree on an organization's rows, code and steps, its requests' and those of platform processes that enter it alone, give it the same answers and rows, whatever the others hold, run and do and whichever connections are drawn |
| `TenantClient.PrismaService.Batch` | packages/database/src/tenant-client.ts:75-80 | a query outside a transaction answers by its organization's rows as it ran and nothing else, and its rows and deletions land together on what others had committed by then, or, refused, nothing does |
| `TenantClient.PrismaService.Statement` | apps/api/src/prisma/prisma.service.ts:80-101 | no tenant: thrown, nothing run; raw outside a transaction: thrown; inside: answers by its organization's rows with the transaction's own writes over them, notes its writes there and commits nothing; outside: a transaction of its own, or, exactly when no connection was free, none |
| `TenantClient.PrismaService.Transaction` | apps/api/src/prisma/prisma.service.ts:132-170 | joins the scope's open transaction, or opens one whose first statement sets the tenant, unless no connection was free |
| `TenantClient.PrismaService.Leave` | apps/api/src/prisma/prisma.service.ts:132-170 | a transaction commits, row by row, all its writes exactly when it opened here, nothing failed in it and the code did not throw, and otherwise none; a joined one commits nothing of its own |
| `TenantClient.PrismaService.RunAs` | apps/api/src/platform/run-as-tenant.ts:41-45 | a nested scope of exactly the named tenant, into which no open transaction reaches |
| `Members.WritesKeepAnOwner` | apps/api/src/memberships/members.service.ts:196-202 | a change decided on owners counted under the lock leaves an active owner |
| `Members.OwnersStay` | apps/api/src/memberships/members.service.ts:82-202 | every step of every change, addition and join keeps an active owner, whatever the actor's role in the token |
| `Members.LockStays` | apps/api/src/memberships/members.service.ts:176-188 | one change at a time holds the lock, and what it loaded stays the row unless its person joined meanwhile |
| `Members.AgreementKeptIff` | apps/api/src/memberships/members.service.ts:82-194 | a step keeps the seat counter and every picker row in agreement with the memberships exactly when it does not change a membership claimed since it was loaded |
| `Members.TeamsKeptIff` | apps/api/src/teams/teams.service.ts:83-97 | a step keeps requesters and removed members out of teams exactly when it is neither an addition overtaken by a change nor the acceptance of a requester's invitation that names a team |
| `Members.NobodyEscalates` | apps/api/src/memberships/members.service.ts:82-94 | only administrators and owners change anyone; an administrator never themselves, an owner or anyone's privileges; an owner is made only by an owner with a fresh proof |
| `Members.WritesChangePeople` | apps/api/src/memberships/members.service.ts:82-168 | a change that is written changes its membership, never its account or kind, and never a service account |
| `Members.OwnersAreRefusedIff` | apps/api/src/memberships/members.service.ts:82-168 | an owner with a fresh proof is refused a person's change exactly for the last owner's sake or when there is nothing to change |
| `Members.AdministratorsWriteIff` | apps/api/src/memberships/members.service.ts:82-168 | an administrator changes a person exactly when it is neither themselves nor an owner, the change changes something, and no role it takes or gives is above agent |
| `Members.UnprovenOwnersWriteIff` | apps/api/src/memberships/members.service.ts:82-168 | without a fresh proof an owner changes what any owner may, but makes no owner |
| `Members.RefusedBecause` | apps/api/src/memberships/members.service.ts:82-168 | which refusal it is, each exactly by its cause and in the source's order: permission, a token's account, the proof, the status, the last owner |
| `Members.WhatIsWritten` | apps/api/src/memberships/members.service.ts:95-168 | a written change moves one row as asked, takes its member out of teams on removal and on becoming a requester, and touches no other row |
| `Members.SeatsWritten` | apps/api/src/memberships/members.service.ts:190-194 | the counter moves by one exactly when the person starts or stops being an active human above requester |
| `Members.CommitsUnless` | apps/api/src/memberships/members.service.ts:190-194 | a decided write is refused exactly when it starts a seat the plan does not have, or would make an outsider more than a requester |
| `Members.JoinsIff` | apps/api/src/memberships/acceptance/invitation-acceptance.service.ts:158-183 | who can join: someone with no other membership while the plan has the seat, as a new member, one removed before, or the outsider they wrote in as |
| `Members.RemovedIsFinal` | apps/api/src/memberships/members.service.ts:148-168 | REMOVED is left only by joining again |
| `MemberRuns.EveryRunKeepsAnOwner` | apps/api/src/memberships/members.service.ts:82-202 | after every interleaving of changes, team additions and joins some active owner remains |
| `MemberRuns.DerivedStateAgrees` | apps/api/src/memberships/members.service.ts:82-194 | seats and picker agree after every run without a drifting step, and teams after every run without an overtaken addition or a requester invited into a team |
| `MemberRuns.ClearRunsAgree` | apps/api/src/memberships/members.service.ts:190-194 | no step drifts while nobody joins as a membership a change has loaded |
| `MemberRuns.RemovedMembersCanBeInTeams` | apps/api/src/teams/teams.service.ts:83-97 | a removal between an addition's look and its insert leaves a removed member in the team |
| `MemberRuns.InvitedRequestersAreInTeams` | apps/api/src/memberships/acceptance/invitation-acceptance.service.ts:174-193 | accepting a requester's invitation that names an active team puts a requester in that team, with nobody else acting |
| `MemberRuns.ClaimedSeatsCanBeLost` | apps/api/src/memberships/acceptance/invitation-acceptance.service.ts:150-183 | an outsider claimed while being removed leaves the counter one seat too high and the picker row active |
| `MembersService.MembersService.Change` | apps/api/src/memberships/members.service.ts:176-188 | not found, decided, refused by the plan or failed, each exactly by the target and the owners as they were read in the run and by what gave out; writes exactly when it decides to and the plan and checks allow, changes nothing otherwise, and leaves an owner |
| `MembersService.MembersService.DecideAndWrite` | apps/api/src/memberships/members.service.ts:82-168 | the owners counted under the lock, the decision on them, and its writes or none |
| `Attachments.TotalSplit` | apps/api/src/jobs/maintenance/attachment-sweep.ts:48-53 | what a batch of abandoned rows gives back and what the rest holds add up to the whole |
| `Attachments.QuotaStays` | apps/api/src/attachments/attachments.service.ts:77-290 | the STORAGE_BYTES counter stays the sum of the rows' sizes and within the limit through every step and crash |
| `Attachments.KeysStay` | apps/api/src/attachments/attachments.service.ts:77-290 | keys and row ids are used once, and what each process may assume of the keys it holds survives everyone else's steps |
| `Attachments.StagingStays` | apps/api/src/attachments/attachments.service.ts:102-108 | whatever lies in staging for a row is of the declared size, because its URL was signed for that length |
| `Attachments.CopiesStay` | apps/api/src/attachments/attachments.service.ts:143-156 | a copied upload keeps its copy while its row waits, and an ingest its object until its row exists |
| `Attachments.ReadyKeptIff` | apps/api/src/attachments/attachments.service.ts:146-156 | a step keeps an object of its size behind every READY row exactly when it is neither the take-back of a completion that `markReady` refused while its row still stands, nor that of an ingest that had committed after all |
| `Attachments.InvStays` | apps/api/src/attachments/attachments.service.ts:77-290 | quota, keys, staging and copies are kept by every step |
| `AttachmentRuns.StorageIsConserved` | apps/api/src/quota/repositories/usage-counter.repository.ts:28-45 | after every run, crashes and sweeps included, the counter is the sum of the rows and at most the limit |
| `AttachmentRuns.MakersAreTheReadyRows` | apps/api/src/attachments/attachments.service.ts:118-223 | over every run each READY row was made by a completion that won or an ingest that committed, and nobody has removed it since |
| `AttachmentRuns.ReadyLostIff` | apps/api/src/attachments/attachments.service.ts:147-217 | over every run, the next step takes an object from under a READY row exactly when it takes back for a completion after another completion of that upload won, or for the very ingest whose commit made the row |
| `AttachmentRuns.ReadyRowsHaveObjects` | apps/api/src/attachments/attachments.service.ts:77-290 | over every run with no clobbering step every READY row has its object |
| `AttachmentRuns.OrderlyRunsKeepEveryObject` | apps/api/src/attachments/attachments.service.ts:118-156 | with one completer for each upload and no commit unheard of, no run clobbers, a `complete` racing the sweep included |
| `AttachmentRuns.OverlappingCompletionsLoseTheObject` | apps/api/src/attachments/attachments.service.ts:143-153 | two overlapping completions of one upload can leave its row READY and its object deleted |
| `AttachmentRuns.UnheardIngestsLoseTheObject` | apps/api/src/attachments/attachments.service.ts:190-217 | an ingest whose transaction commits without its answer arriving deletes the object of the READY row it has just made |
| `AttachmentsService.AttachmentsService.Presign` | apps/api/src/attachments/attachments.service.ts:77-116 | the PENDING row and its quota commit together before the URL exists, which takes exactly that size; refused exactly when the plan was full as it looked |
| `AttachmentsService.AttachmentsService.Complete` | apps/api/src/attachments/attachments.service.ts:118-165 | sniff, copy, clear staging and only then mark; every answer exactly by the row, the staged bytes and the calls that failed, as they were in the run when it got there; so with every call answered a PENDING row with the right bytes ends completed, or lost to whoever took it; success means a READY row with its object |
| `AttachmentsService.AttachmentsService.Check` | apps/api/src/attachments/attachments.service.ts:127-142 | bytes missing, of the wrong size or of the wrong kind never reach the final key, and only those and failed calls stop it |
| `AttachmentsService.AttachmentsService.Mark` | apps/api/src/attachments/attachments.service.ts:147-153 | marked exactly when the row was still PENDING as the transaction ran; otherwise the copy is taken back |
| `AttachmentsService.AttachmentsService.Ingest` | apps/api/src/attachments/attachments.service.ts:175-223 | object first, then row; kept, refused or unheard exactly by the plan and the transaction's fate; success leaves a READY row of that size with its object, a refusal no row and, if storage answers, no object |
| `AttachmentsService.AttachmentsService.Remove` | apps/api/src/attachments/attachments.service.ts:257-282 | exactly a READY row; the row goes and exactly its bytes come back before the object is deleted |
| `AttachmentsService.AttachmentSweepService.Sweep` | apps/api/src/jobs/maintenance/attachment-sweep.ts:43-68 | each batch takes the oldest due rows it finds, a hundred or all there are, commits, and only then deletes; it ends exactly after a short batch, an empty one or twenty; the count is the rows removed |
| `AttachmentsService.AttachmentSweepService.SweepBatch` | apps/api/src/jobs/maintenance/attachment-sweep.ts:48-62 | a batch of at most 100 abandoned rows deletes each row's two objects, each place once |
| `AttachmentsService.QueryTakesTheOldest` | apps/api/src/attachments/repositories/attachment.repository.ts:102-110 | due rows, oldest first, each once; one is left only behind a hundred older ones |
| `InsertionOrder.Without` | apps/api/src/api-tokens/api-token-verifier.ts:64-67 | deleting a key keeps the others, in order and without repeats |
| `InsertionOrder.Ordered.Evicted` | apps/api/src/api-tokens/api-token-verifier.ts:64-67 | a full map loses its first key and no other, and stays below the limit |
| `ApiTokens.Joined` | apps/api/src/api-tokens/api-token-verifier.ts:77-84 | a full set of rejected digests loses its oldest and no other, keeps the new one, and never grows past 64 |
| `ApiTokens.NoStaysSound` | apps/api/src/api-tokens/api-token-verifier.ts:72-84 | remembering a wrong secret never rejects another |
| `ApiTokens.YesStaysSound` | apps/api/src/api-tokens/api-token-verifier.ts:64-69 | remembering a right secret keeps every cached yes a real success and every bound |
| `ApiTokens.KnownIsRight` | apps/api/src/api-tokens/api-token-verifier.ts:53-55 | a cached digest that matches is this very secret's success, made five minutes before it expires |
| `ApiTokens.ApiTokenVerifier.SecretMatches` | apps/api/src/api-tokens/api-token-verifier.ts:52-70 | always the slow check's answer, with other requests interleaved at the await; it hashes exactly when neither cache knows the secret; a yes without hashing is a real success less than five minutes old; what it learned is remembered and nothing else forgotten but the oldest of a full cache; 1000, 1000 and 64 are never exceeded |
| `ApiTokens.ApiTokenVerifier.Authenticate` | apps/api/src/api-tokens/api-token-verifier.ts:35-50 | accepted exactly when the row is usable now and the secret right: nothing remembered outlives a revocation |
| `CategoryTree.SortSorts` | apps/app/lib/category-tree.ts:20-22 | the sibling sort orders by sort order, then name, and only rearranges |
| `CategoryTree.OneChain` | apps/app/lib/category-tree.ts:9-30 | with distinct ids a category has one chain of parents at most, cycles or not |
| `CategoryTree.ChainsAreShort` | apps/app/lib/category-tree.ts:19-27 | no chain from a root is longer than the list, so the recursion ends |
| `CategoryTree.ListingHolds` | apps/app/lib/category-tree.ts:19-27 | below a path are exactly the categories whose chain passes through it |
| `CategoryTree.EachRootedCategoryOnce` | apps/app/lib/category-tree.ts:9-30 | the order holds each category whose parents reach a root exactly once, and no other |
| `CategoryTree.ListingIsPreorder` | apps/app/lib/category-tree.ts:19-27 | each category follows its parent with only that parent's descendants in between |
| `CategoryTree.ReadsInTreeOrder` | apps/app/lib/category-tree.ts:9-30 | preorder, and under every listed parent all its children, sorted |
| `CategoryTree.ListedCategoriesHavePaths` | apps/app/lib/category-tree.ts:33-46 | every category the order holds has a path, and it spells the names from its root down |
| `CategoryTree.PathEndsIff` | apps/app/lib/category-tree.ts:37-44 | for any list, the walk up the parents ends exactly when its first parent is in no set of categories whose parents are all in it; a root or a missing parent ends it |
| `CategoryTree.TwoInACircle` | apps/app/lib/category-tree.ts:37-44 | from two categories that are each other's parents no walk ends, and the reading order holds neither |
| `CategoryTree.CategoryPath` | apps/app/lib/category-tree.ts:33-46 | the loop puts each parent's name in front, up to a root or a missing parent |
| `CategoryTree.TreeOrder.InTreeOrder` | apps/app/lib/category-tree.ts:9-30 | the map and the recursion compute exactly that order, for any list with distinct ids |
| `CategoryTree.TreeOrder.Visit` | apps/app/lib/category-tree.ts:19-27 | one call appends exactly what is below its parent |
| `RecentList.ParseJoin` | apps/api/src/auth/cookies.ts:174-178 | a list of slugs reads back from its own cookie unchanged |
| `RecentList.SlugIff` | packages/contracts/src/slug.ts:12-23 | slug-shaped is exactly: three to thirty characters that split at hyphens into non-empty groups of lower-case letters and digits |
| `RecentList.ParseReads` | apps/api/src/auth/cookies.ts:174-178 | every slug among the cookie's pieces is read unless twenty others are, and nothing else is |
| `RecentList.CutsCompose` | apps/api/src/auth/cookies.ts:106-109 | cutting to the budget now or later leaves the same list |
| `RecentList.MovesToFront` | apps/api/src/auth/cookies.ts:106 | minting a workspace moves it to the front and the others keep their order |
| `Cookies.BudgetKeptIff` | apps/api/src/auth/cookies.ts:97-122 | a set or clear keeps every pair in the jar on the list, and the list within five without repeats, exactly when it strays no cookie: none set for a workspace neither minted nor listed, no refresh cookie left behind by a cleared access cookie |
| `Cookies.WholePairsNeverStray` | apps/api/src/auth/cookies.ts:84-90 | pairs set and cleared whole never stray |
| `Cookies.RequestBringsTheList` | apps/api/src/auth/cookies.ts:129-139 | whatever pairs a request carries and in whatever order, the list it brings is the jar's |
| `Cookies.SessionsKeepTheBudget` | apps/api/src/auth/cookies.ts:97-150 | after any session from an empty jar: five slugs at most, none twice, read back unchanged, no pair outside them, and the front of all the workspaces signed in to, most recent first; exactly the first five while nobody signs out |
| `Cookies.CookieService.Set` | apps/api/src/auth/cookies.ts:97-110 | the loops send the cookies, the expired pairs and the new list, after all earlier headers; in any jar that applies them, every name set and within the budget holds the last value set for it, the pairs past the budget are gone, the list is the new one and every other name is as it was |
| `Cookies.CookieService.Clear` | apps/api/src/auth/cookies.ts:112-122 | the loops expire the names and write the list without them; in any jar that applies it exactly those names are gone, and every other but the list is as it was |
| `SerialAdapter.InvStays` | packages/database/src/serial-adapter.ts:34-48 | each call hangs on the one before, and the connection's log stays serial, through every call, start and settling |
| `SerialAdapter.EveryRunIsSerial` | packages/database/src/serial-adapter.ts:34-48 | over every run the connection starts and ends what it was given one at a time, in call order, each outcome its own caller's |
| `SerialAdapter.OutcomesAreTheirOwn` | packages/database/src/serial-adapter.ts:34-48 | over every run a call's outcome is exactly the one its own statement settled with |
| `SerialAdapter.CallersAreNotHeldUp` | packages/database/src/serial-adapter.ts:34-40 | a statement can be handed over at any time, and one that runs can settle with any outcome, which it then has |
| `SerialAdapter.AtMostOneRuns` | packages/database/src/serial-adapter.ts:33-40 | never two statements in flight |
| `SerialAdapter.EarlierHaveSettled` | packages/database/src/serial-adapter.ts:44-46 | a commit or rollback that has started finds every earlier statement settled |
| `SerialAdapter.FailuresDoNotStall` | packages/database/src/serial-adapter.ts:36-40 | with nothing running the next waiting call can start whatever failed before it, and no other can |
| `SerialAdapter.InTurn.Next` | packages/database/src/serial-adapter.ts:35-40 | a call queues behind everything handed over before it |
| `Text.SplitJoin` | apps/api/src/jobs/job-id.ts:16 | pieces without the separator come back from their join |
| `Text.SplitAppend` | apps/api/src/jobs/job-id.ts:16 | splitting a joined text splits its parts |
| `JobIds.SameIdIff` | apps/api/src/jobs/job-id.ts:10-17 | two jobs share an id exactly when queue, entity and discriminator agree and the tenants do, "platform" standing for none; slashes in an organization's id confuse nothing |
| `JobIds.IdIff` | apps/api/src/jobs/job-id.ts:10-17 | an id exists exactly when queue, entity and discriminator are non-empty and free of slash and colon, and then is the four parts joined by slashes |
| `JobIds.PlatformIsNotATenant` | apps/api/src/jobs/job-id.ts:16 | an organization called "platform" would share the platform's ids |
| `Durations.ParseSpell` | apps/app/lib/duration.ts:28-34 | any spelled groups of days, hours and minutes parse to their sum |
| `Durations.ParseIff` | apps/app/lib/duration.ts:25-35 | a text parses, and to this number, exactly when it is a positive bare number or, between spaces, a run of digits each with its unit that adds up to it |
| `Durations.ParseFormat` | apps/app/lib/duration.ts:10-35 | parsing what was formatted gives the number back, for every number but zero, which parses to nothing |
| `Durations.FormatDuration` | apps/app/lib/duration.ts:10-19 | the loop carries the rest from unit to unit and writes exactly the nonzero counts |
| `Durations.ParseDuration` | apps/app/lib/duration.ts:25-35 | the loop over the matches adds up what the grammar says |
| `TicketNumbers.ParseFormat` | packages/contracts/src/ticket-number.ts:29-55 | a formatted number parses back to its type and number exactly below ten to the ninth, and to nothing from there on |
| `TicketNumbers.ParseIff` | packages/contracts/src/ticket-number.ts:40-55 | a text parses, and to this, exactly when trimmed it is one to nine digits, alone or after a hash, or a known prefix in either case, a hyphen and such digits |
| `TicketNumbers.Abbreviations` | packages/contracts/src/ticket-number.ts:15-24 | INC, SR, PRB and CHG, written and read, stand for their own type and no other |
| `Digits.TrimIs` | packages/contracts/src/ticket-number.ts:41 | white space goes from both ends and nothing else does |
| `TicketNumbers.FoundInSubject` | packages/contracts/src/ticket-number.ts:58-63 | in brackets it is found in any subject with no bracketed number earlier |
| `TicketNumbers.NoBracketNoneEarlier` | packages/contracts/src/ticket-number.ts:58-63 | a subject with no "[" before it has none earlier |
| `TicketNumbers.EarliestAnswers` | packages/contracts/src/ticket-number.ts:58-63 | otherwise the earliest bracketed number answers, even with nothing |
| `Authorization.ListingAgreesWithOpening` | apps/api/src/authz/permission.service.ts:137-162 | for every actor, team list, visibility and ticket, the list's branches select it exactly when `can("ticket:read")` holds of its subject |
| `Authorization.WhoMayOpen` | apps/api/src/authz/permission.service.ts:137-162 | who may open a ticket, kind by kind and role by role: a token in no team and only with its scope, support everything, an outsider as a requester, nobody without a tenant |
| `Authorization.ListedButOutOfScope` | apps/api/src/authz/scope-filter.ts:51-54 | what an own-team agent lists but has out of scope is exactly their own ticket, routed to another team and not assigned to them |
| `Authorization.ToldIsListed` | apps/api/src/notifications/audience.ts:37-58 | someone may be told of a ticket exactly when it is in their own list |
| `Authorization.InternalReaders` | apps/api/src/notifications/audience.ts:57 | internal notes are read by administrators, owners and agents in scope only |
| `FanOut.FirstDeliveryWins` | apps/api/src/notifications/fan-out.ts:81-94 | each member gets at most one delivery: the first call of `send` that named them and that they hear |
| `FanOut.ActorOnlyByReceipt` | apps/api/src/notifications/fan-out.ts:107-115 | nobody who left is told, and the actor only by the email receipt of their own ticket |
| `FanOut.NotesReachTheAssigneeOnly` | apps/api/src/notifications/fan-out.ts:98-105 | an internal note's delivery is the assignee's |
| `FanOut.NoteEventsStayInternal` | apps/api/src/notifications/fan-out.ts:98-105 | an event that is an internal note tells nobody but the assignee anything |
| `FanOut.NamedIsTold` | apps/api/src/notifications/fan-out.ts:81-94 | whoever a call names and does not pass over gets a delivery, from it or an earlier one |
| `FanOut.ListenersAreTold` | apps/api/src/notifications/fan-out.ts:107-179 | whoever any event has something to say to, and who is there to hear it, is told, for every kind of event |
| `FanOut.DeliveriesAreTold` | apps/api/src/notifications/fan-out.ts:77-179 | every delivery's person, kind and channels are what the event has to say to that person, of itself whenever it has that to say, and only otherwise of the comment it carries or of a ticket's arrival |
| `FanOut.FollowersAreTold` | apps/api/src/notifications/fan-out.ts:98-161 | a public reply, alone or riding on a move, and a move with words for it reach everyone who follows, is active and is not the actor |
| `FanOut.OnlyFollowersAreTold` | apps/api/src/notifications/fan-out.ts:121-137 | a reply or a move tells nobody but the requester, the assignee and the watchers |
| `FanOut.ApproversAreTold` | apps/api/src/notifications/fan-out.ts:142-153 | a submitted change reaches the leads and administrators who could decide it, never its requester or assignee |
| `FanOut.BreachesEscalate` | apps/api/src/notifications/fan-out.ts:167-176 | a breach reaches everyone its warning does, and the administrators |
| `FanOut.ToldMayRead` | apps/api/src/notifications/notify.ts:106-111 | whoever is told finds the ticket in their own list, once, and notes reach only an assignee who may read them |
| `FanOut.SameMailJobIff` | apps/api/src/notifications/fan-out.ts:202-222 | across any runs, events and tenants, two mails share a job id exactly when event, member and tenant are the same, so a run again can queue nothing twice |
| `FanOut.FanOut.SendTo` | apps/api/src/notifications/fan-out.ts:81-94 | the loop over people keeps each member's first delivery |
| `FanOut.FanOut.Deliver` | apps/api/src/notifications/fan-out.ts:77-179 | all calls of an event in order; one delivery for each member, active ones only |

## Left out

The relay
- One consumer in one tenant is modelled at a time: locks, cursors and flags of different consumers and tenants are different keys and share nothing.
- A commit whose answer is lost counts as a rollback the worker sees, so a drain may stop early but never reports less than it did; retention of old events, replay of dead letters and events a handler appends itself are not part of this model.
- Delays of queued jobs are not timed: a delayed job is a job that is taken late. Clocks of processes and database are one clock that never goes back.
- What a handler does and whether its failure is transient are inputs of the relay's machine; `Transience` models the test itself.
- Relay.EventRelay.RecordFailure: a recording whose own transaction fails is not an answer of it; it is the death of the drain, after which nothing was counted.
- Requests.DrainRequests.Started: a flag that Redis does not take down fails the job before anything is read, which is the death of the worker here.
- Unreadable job payloads, metrics and log lines.

Tenant isolation
- TenantViews.OrganizationsDoNotInterfere: speaks of processes that do one organization's business, its requests and the jobs and sweeps that run as it; a process that enters several organizations with `runAsTenant`, as account erasure does, carries what it read in one to the next in its own memory. Each statement it runs still stays in its scope (`TenantIsolation.StatementsRunAtHome`, `TenantViews.CommitsAtHome`).
- Platform tables, which every tenant may read: noninterference is about tenant-owned tables.
- Time and waiting: row locks and the size of the pool only decide when a step may happen, and the model allows every order. Deadlocks and statement timeouts appear as aborted transactions only through a request's end.
- A statement is any function from the rows it sees to an answer and writes; SQL itself, foreign keys across statements and the UUID cast of the policy are not modelled. Promises awaited outside their context are not part of this model.
- One request is one sequence of steps; statements a request runs at once inside one transaction are taken in some order (`SerialAdapter` says they are).

Memberships
- MembersService.MembersService.Change: does not model the audit row and the revocation epoch's value; an epoch that cannot be recorded is one of the outages by which the transaction rolls back.
- Joining is one atomic step here, with the invitation's own state and the audit row left out; account erasure, domain join and identity-provider provisioning write memberships too and are not part of this model.
- An organization whose plan changes while changes run: the limit is fixed.
- Lists, cursors and the member read model.

Attachments
- Contents beyond a length: what sniffing says is an input, and who may upload, complete or delete is decided elsewhere.
- AttachmentsService.AttachmentsService.Check: the stored size and the first bytes are read at one instant; an object that goes between the two calls is a read without an answer.
- An upload URL outlives nothing here: it may stay alive for as long as it likes, which is more than the source allows.
- AttachmentsService.AttachmentSweepService.Sweep: the cutoff is an id, as ids are given out in the order of time; rows other transactions hold locked, which the query skips, are an input. A batch whose transaction fails ends the sweep, which is a crash here.
- The reconcile job that repairs a drifted counter.

Token verifier
- ApiTokens.ApiTokenVerifier.SecretMatches: the caches as other requests leave them during the slow check are an input, which keeps what every request keeps; the hash of a prefix is taken as fixed and the digest as injective; a token whose stored hash changed would be answered from the old one for five minutes.
- Scopes and `markUsed`.

Cookies, tree, text
- Responses follow one another: two requests whose responses cross can each write a list that lacks the other's workspace.
- Attributes of cookies other than their name and path class, and the list cookie's own expiry, which is never before its pairs'.
- CategoryTree.TreeOrder.InTreeOrder: asks for distinct ids, which are the table's key; with repeated ids a parent loop reachable from a root would not end. Names are compared by a collation key.
- Numbers are unbounded: durations above 2^53 minutes lose precision in the source.
- `toLowerCase` and `toUpperCase` are modelled on ASCII letters, the only ones the patterns accept.

Reading and fan-out
- The rest of the permission matrix, asset scopes and the capability list: finite tables.
- Titles, reasons, dedupe keys and the folding of unread inbox rows; which rows are new is an input.
- Plan-limit mails, which use the same entity and another kind.
