# Operations panel: verified core

A Dafny model of the lock-protected state machines behind an operations panel
for servers and edge workers, with the guarantees they give over whole runs.

- **WebSSH tickets** (`Tickets`, `TicketAnswers`, `TicketStores`, `TwoTier`,
  `TwoTierSessions`): the ticket tables of the gateway and the Connector, and
  both composed on one clock with any number of concurrent issue calls, browser
  hellos, prune ticks and shutdowns.
- **Rate limiter** (`TokenBucket`): the lazy token bucket against a
  specification that speaks only of admitted calls and time windows.
- **Worker deployments** (`Deployments`, `DeploymentStore`,
  `WorkerStoreAnswers`, `PostgresDeployments`, `DeploymentExecutor`,
  `SchemaInvariant`, `ExecutionOutcomes`, `ExecutionHistory`,
  `UndisturbedExecutions`): planning by compare-and-swap, the deployment state
  machine, the PostgreSQL read-check-write form refining the atomic one, and
  concurrent execution against an arbitrary provider over either storage.
- **Provider idempotency** (`SingleFlight`, `SingleFlightAnswers`): the
  single-flight cache.
- **Runbooks** (`RunbookLedger`, `LedgerAnswers`, `RunbookCatalog`,
  `RunbookScope`): the idempotency ledger inside its semaphore, the fixed
  catalog and executor, the digest that ties an approval to one binding, and
  when an approval admits a request.
- **Compact state machines** (`ReplayCache`, `Leases`, `OutputBudget`,
  `Ranking`, `RankingFallback`, `FallbackTexts`, `PagedStore`): the request
  verifier, leases, the shared output budget, the ranking validator, its
  fallback and the texts that writes, and the paged in-process repository.
- `Common`, `Text` and `Sorting` hold what these share.

The modules named after answers or history state, for every answer an operation
gives, exactly what brings it about and what it leaves behind, and for what a
run ends in, the earlier steps it rests on.

## How the model is built

Each lock region of the services is one step: a total function on a value. A
run is a sequence of operations folded from the initial state, and a step whose
caller is not at that point of its code changes nothing, so a statement about
all sequences is a statement about all interleavings. Objects whose methods
update fields are classes whose methods are proved equal to those steps; loops
over maps are loops. Ghost or auxiliary components (who holds an upstream
value, who won a deployment, what was last started under a job) only record
what happened.

Times are integers: nanoseconds, or microseconds in deployment records, which is
what their columns keep, and reals in the limiter. Where a service reads the
clock before it takes its lock, the model lets the reading be older than the
clock: the two ticket tiers use any reading the clock has shown, and what a
repeated ticket or a repeated request is told is proved for an arbitrary lag.
Random tickets and tokens are fresh. The MAC is ideal; the scope digest holds
for any hash, up to an explicit collision. The provider and the runbook runner
may answer anything.

Where a guarantee does not hold on all inputs, the exact condition is proved:

- once every execute call has ended, an executed deployment is still marked
  running if and only if the provider answered its executor with what does not
  fit into a record: an error of a kind longer than 117 characters, because its
  code then exceeds 128, and over PostgreSQL also an error kind of other than
  code characters or an identifier longer than 128; for every error that does
  not fit some run ends like that, and every declared kind fits;
- the PostgreSQL form answers like the in-memory form except that it refuses
  exactly the legal updates whose identifiers, provider state or error code the
  schema does not admit; such a call changes nothing;
- a spent ticket presented again is answered as a replay exactly while no step
  since has pruned at or past its mark; that covers every reading more than
  twice the lag before its original expiry, and with readings in lock order
  every reading before it;
- a runbook claim can be told the ledger is full exactly when the ledger limit
  is below the number of concurrent requests admitted;
- a signed request can be accepted twice only if its timestamp lay within the
  lag of the upper edge of the window when first accepted; with readings in lock
  order that is one instant, and a request stamped there is accepted again; with
  a lag, every request that close to the edge is accepted again if the cache has
  room for two more nonces and another request in the window comes in between;
- following audit cursors ends exactly when no page ends in an event with the
  zero time, which an event may carry because recording does not check it.

## Model

| member | source | states |
|---|---|---|
| `Tickets.BurnsNeverExceedStores` | services/websshgateway/websocket.go:395-426 | over every run, presenting a ticket takes it out (granted, or burnt by a mismatched hello) at most as often as it was stored, counting what is still outstanding |
| `Tickets.ExpiredIsUnreachable` | services/websshgateway/websocket.go:402-424 | the expired answer cannot be given by any table at any reading, because the same reading has just pruned |
| `Tickets.SpentStaysSpent` | services/websshgateway/broker.go:346-358 | a spent ticket stays spent through any run of other steps until one prunes at or past its mark or the same hash is stored again |
| `Tickets.RepeatAnswer` | services/websshgateway/websocket.go:402-413 | while nobody stores the same hash again, a spent ticket is answered as a replay if and only if no step since, nor the repeat, pruned at or past its mark; otherwise as a ticket that never was |
| `Tickets.RepeatIsReplayed` | services/websshgateway/websocket.go:395-426 | in every run whose readings lag by a bounded amount, presenting a spent ticket again more than twice the lag before its original expiry is answered as a replay, whatever happened in between |
| `Tickets.RunKeepsBounded` | services/websshgateway/broker.go:312-324 | in every run outstanding tickets stay within the limit and outstanding plus remembered tickets stay within five times the limit less one |
| `Tickets.BoundIsTight` | services/connector/service/webssh.go:301-312 | for every limit some run reaches that bound exactly |
| `TicketAnswers.ConsumeAnswers` | services/websshgateway/websocket.go:395-426 | a presented ticket is granted exactly when it is outstanding and shown with its own claim, and then the stored entry is handed out; a mismatch exactly when it is shown with any other claim or a malformed one; a replay exactly while it is spent and remembered; invalid exactly otherwise |
| `TicketAnswers.ConsumeLeaves` | services/connector/service/webssh.go:592-622 | whatever the answer, an outstanding ticket that is presented is gone and marked for one lifetime, and every other live ticket and mark stays as it was |
| `TicketAnswers.UndecodedIsInvalid` | services/websshgateway/websocket.go:395-402 | what does not decode is invalid and changes nothing |
| `TicketAnswers.StoreAnswers` | services/websshgateway/broker.go:312-324 | a ticket is taken in exactly by an open table with fewer live tickets than the limit and fewer live marks than four times it, under a hash that is not outstanding; nothing live is lost |
| `TicketAnswers.GrantsMatchTheLastStore` | services/websshgateway/websocket.go:395-426 | in every run, whoever is granted a ticket presented the claim it was last stored with, before it expired, and gets what was stored |
| `TicketAnswers.ClosedForGood` | services/websshgateway/broker.go:398-411 | in every run the table is closed exactly after a shutdown, and from then on holds no ticket, takes none and grants none |
| `TicketStores.PruneTickets` | services/websshgateway/broker.go:346-352 | the pruning loop keeps exactly the tickets that expire after the reading |
| `TicketStores.PruneConsumed` | services/connector/service/webssh.go:245-249 | the pruning loop keeps exactly the marks that lie after the reading |
| `TicketStores.Broker.constructor` | services/websshgateway/broker.go:82-121 | a new broker is the empty gateway table with no reservation |
| `TicketStores.Broker.PruneLocked` | services/websshgateway/broker.go:346-358 | one prune step of the table, reservations untouched |
| `TicketStores.Broker.ReserveTicket` | services/websshgateway/broker.go:293-302 | one reserve step: granted exactly when open and stored plus reserved are below the limit after pruning |
| `TicketStores.Broker.ReleaseTicketReservation` | services/websshgateway/broker.go:304-310 | one release step, never below zero |
| `TicketStores.Broker.StoreTicket` | services/websshgateway/broker.go:312-324 | one store step of the table, reservations untouched |
| `TicketStores.Broker.ConsumeTicket` | services/websshgateway/websocket.go:395-426 | one consume step of the table with the answer the browser gets |
| `TicketStores.Broker.Shutdown` | services/websshgateway/broker.go:398-411 | closing drops every outstanding ticket, keeps the spent marks and happens once |
| `TicketStores.WebSSHManager.constructor` | services/connector/service/webssh.go:185-197 | a new manager is the empty Connector table |
| `TicketStores.WebSSHManager.PruneLocked` | services/connector/service/webssh.go:238-250 | one prune step of the Connector table |
| `TicketStores.WebSSHManager.CreateTicket` | services/connector/service/webssh.go:280-317 | one store step whose lifetime starts at the reading it prunes with; the announced expiry is the stored one |
| `TicketStores.WebSSHManager.ConsumeTicket` | services/connector/service/webssh.go:592-622 | one consume step of the Connector table |
| `TicketStores.WebSSHManager.Shutdown` | services/connector/service/webssh.go:199-216 | closing drops every outstanding ticket and keeps the spent marks |
| `TwoTier.ReservationsAreHonoured` | services/websshgateway/broker.go:189-324 | in every interleaving, stored tickets plus issue calls that may still store never exceed the limit, a reserved call is never refused for a full ticket table, and the counter is positive at every release |
| `TwoTier.TiersAgree` | services/websshgateway/broker.go:204-285 | in every reachable state with the Connector open, each unexpired browser ticket has its own upstream ticket, present, unconsumed, with the claim the gateway will present and expiring no earlier |
| `TwoTier.RedeemedSessionIsAdmitted` | services/websshgateway/websocket.go:174-210 | in every reachable state with the Connector open, a session that redeemed an unexpired browser ticket is granted the very entry created for it |
| `TwoTier.RoomSuffices` | services/websshgateway/broker.go:189-265 | from every reachable state in which both tiers are open and have room, an issue call stores, its browser redeems the ticket and the session is granted the entry the Connector created |
| `TwoTier.HeldKept` | services/websshgateway/broker.go:242-259 | every step hands an upstream value to exactly one gateway-side holder |
| `TwoTier.KeptKept` | services/connector/service/webssh.go:592-622 | no step of the Connector touches an unexpired value that the gateway side still holds |
| `TwoTierSessions.IssueStores` | services/websshgateway/broker.go:242-285 | an issue call stores its ticket exactly when the answer expires within the minute after it was checked, the capped lifetime is not over and the table takes it; the ticket carries the claim of the call and the earlier of the two expiries |
| `TwoTierSessions.HelloOpens` | services/websshgateway/websocket.go:174-210 | a hello opens a session exactly when it presents an outstanding ticket and shows its claim; it opens no other and closes none |
| `TwoTierSessions.SessionsWereOpened` | services/websshgateway/websocket.go:174-210 | in every interleaving, every open session was opened by a hello that showed the claim of the ticket it redeemed |
| `TwoTierSessions.TicketsWereIssued` | services/websshgateway/broker.go:204-285 | in every interleaving, every browser ticket was issued by a call whose claim, upstream value and capped lifetime it carries |
| `TokenBucket.AllowIsExact` | services/websshgateway/websocket.go:543-560 | a call is admitted exactly when no window ending now would exceed burst plus rate times its length, and the stored tokens remain the least room over all windows |
| `TokenBucket.LeastRoomDecides` | services/connector/service/webssh.go:689-706 | comparing with the token count is the same as checking every window |
| `TokenBucket.LimiterIsExact` | services/websshgateway/websocket.go:539-560 | for every run at non-decreasing times the limiter decides exactly like the window rule, which knows only the calls admitted so far |
| `TokenBucket.SessionThroughput` | services/websshgateway/websocket.go:287 | with a burst of twice the rate, every run admits at most rate times (T + 2) bytes in every window of length T |
| `TokenBucket.WindowsStayBounded` | services/connector/service/webssh.go:677-706 | admitting what the tokens allow keeps every window of the log within its bound |
| `TokenBucket.RateLimiter.constructor` | services/websshgateway/websocket.go:539-541 | a full bucket, exact for the empty log |
| `TokenBucket.RateLimiter.Take` | services/connector/service/webssh.go:689-706 | the refill-then-debit arithmetic is one step of the bucket |
| `TokenBucket.RateLimiter.Permit` | services/websshgateway/websocket.go:543-560 | the object admits exactly what fits every window of its own log, and logs exactly that |
| `Deployments.TransitionsAdvance` | services/control-plane/internal/store/cloudflare_execution.go:52-76 | no legal transition keeps or returns to a state |
| `PostgresDeployments.SchemaRefusesExactly` | migrations/000003_cloudflare_execution.up.sql:14-43 | the schema refuses a transition the service accepts exactly when the record is not storable: lengths, provider state or the alphabet of the error code; never by its lifecycle or time constraints |
| `PostgresDeployments.WrittenRowReadsBack` | services/control-plane/internal/store/postgres_cloudflare_execution.go:40-58 | the columns set and the columns left alone read back as exactly the record that was written |
| `PostgresDeployments.RefusedReadIsAtomic` | services/control-plane/internal/store/postgres_cloudflare_execution.go:26-34 | a call refused on reading is refused with the same answer by the in-memory step at that moment |
| `PostgresDeployments.WriteIsAtomic` | services/persistence/cloudflare_execution.go:43-59 | the guarded row update is the in-memory step on the rows as they are at that moment, in front of a storage that refuses exactly what is not storable, with the same answer |
| `PostgresDeployments.WriteKeepsSeen` | services/persistence/cloudflare_execution.go:43-59 | a row whose state is unchanged since another caller read it is unchanged as a whole |
| `PostgresDeployments.ReadCheckWriteRefinesAtomic` | services/control-plane/internal/store/postgres_cloudflare_execution.go:26-38 | for every table and every interleaving, the calls in the order they took effect are a run of the in-memory store, with exactly the unstorable records refused, ending in the same rows; the log holds one entry per finished call, with the update its caller asked for and the answer it got |
| `PostgresDeployments.CallsWereAsked` | services/control-plane/internal/store/postgres_cloudflare_execution.go:26-38 | what a call writes or answers is what its caller asked for when it read |
| `PostgresDeployments.StorableDecides` | services/persistence/cloudflare_execution.go:43-59 | a legal update that nobody interrupts succeeds exactly when its record is storable |
| `PostgresDeployments.SomeUpdateIsRefused` | migrations/000003_cloudflare_execution.up.sql:34-39 | an update to failed with the error code E, which the service admits, is refused |
| `DeploymentStore.DeploymentsFormChains` | services/control-plane/internal/store/cloudflare.go:106-141 | in every run, every worker's deployments form one chain in plan order ending in its desired version, its version counts them, and no deployment lies outside a chain |
| `DeploymentStore.FreshWorkerChain` | services/control-plane/internal/store/cloudflare.go:109-141 | in every run, for a worker created at version 1 with nothing desired, the first deployment replaces nothing, each later one its predecessor, the desired version is the last one's and the version is one plus the number of plans |
| `DeploymentStore.UpdateKeepsChained` | services/control-plane/internal/store/cloudflare_execution.go:38-71 | execution updates never break a chain |
| `DeploymentStore.PlanKeepsChained` | services/control-plane/internal/store/cloudflare.go:109-141 | an accepted plan extends exactly one chain |
| `DeploymentStore.Memory.constructor` | services/control-plane/internal/store/memory.go:30-45 | the empty store |
| `DeploymentStore.Memory.InsertWorker` | services/control-plane/internal/store/cloudflare.go:9-17 | one create step: refused for a known identifier, otherwise only that worker is added |
| `DeploymentStore.Memory.PutWorkerToken` | services/control-plane/internal/store/cloudflare.go:40-48 | one token step: refused for an unknown worker, otherwise only that worker gets its token |
| `DeploymentStore.Memory.DeleteWorkerToken` | services/control-plane/internal/store/cloudflare.go:60-68 | one token step: refused without a token, otherwise only that token goes |
| `DeploymentStore.Memory.CreateWorkerVersion` | services/control-plane/internal/store/cloudflare.go:70-81 | one version step: refused for an unknown worker or a known identifier, otherwise only that version is added |
| `DeploymentStore.Memory.PlanWorkerDeployment` | services/control-plane/internal/store/cloudflare.go:109-141 | one plan step with its refusals in order, writing the deployment and the worker together |
| `DeploymentStore.Memory.UpdateWorkerVersionProvider` | services/control-plane/internal/store/cloudflare_execution.go:9-25 | one provider-version step |
| `DeploymentStore.Memory.UpdateWorkerDeployment` | services/control-plane/internal/store/cloudflare_execution.go:38-50 | one compare-and-swap step on a deployment record |
| `WorkerStoreAnswers.EverythingIsOwned` | services/control-plane/internal/store/cloudflare.go:9-141 | in every run only workers have tokens and versions, and every deployment is of a version of its own worker |
| `WorkerStoreAnswers.PlanAnswers` | services/control-plane/internal/store/cloudflare.go:106-141 | in every run a plan is accepted exactly when it is proper, its worker exists, the version is that worker's, the worker has a token, the identifier is new and it follows on what the worker desires; not found exactly when it is proper and one of the three is missing; accepted, it adds the deployment and moves the worker on, and otherwise nothing changes |
| `WorkerStoreAnswers.ProviderAnswers` | services/control-plane/internal/store/cloudflare_execution.go:9-25 | the provider's version is recorded exactly for a version of the worker and with everything it takes; nothing else changes |
| `WorkerStoreAnswers.TokenAndVersionAnswers` | services/control-plane/internal/store/cloudflare.go:40-81 | tokens and versions are taken for known workers only, a version under a new identifier only |
| `DeploymentExecutor.OnlyTheWinnerContactsTheProvider` | services/control-plane/internal/api/cloudflare_execution.go:94-130 | for any number of concurrent execute calls, a deployment's provider is contacted by one caller only, the one that won ready to running |
| `DeploymentExecutor.TheWinnerContactsTheProvider` | services/control-plane/internal/api/cloudflare_execution.go:178-253 | the winner of a deployment that is past its claim has contacted the provider for it |
| `DeploymentExecutor.FinalWrite` | services/control-plane/internal/api/cloudflare_execution.go:236-271 | the final compare-and-swap is refused exactly when what it writes does not fit into a record of the storage |
| `DeploymentExecutor.OwnStepsCount` | services/control-plane/internal/api/cloudflare_execution.go:94-271 | an execute call moves by its own steps only, and each brings it closer to its end |
| `DeploymentExecutor.UnfinishedCanStep` | services/control-plane/internal/api/cloudflare_execution.go:94-271 | a call that has not ended has a step of its own to take |
| `DeploymentExecutor.RunsCanFinish` | services/control-plane/internal/api/cloudflare_execution.go:94-271 | every run can be continued until every call has ended |
| `ExecutionOutcomes.ExecutionsAlwaysFinish` | services/control-plane/internal/api/cloudflare_execution.go:178-271 | over either storage, once all calls have ended, a deployment is still running if and only if it was executed and a step that was taken answered its executor with what does not fit; otherwise it is untouched, or ended as intended with created, started and finished in order |
| `ExecutionOutcomes.RunFits` | services/control-plane/internal/api/cloudflare_execution.go:178-271 | over every run, what a call was answered fits exactly if no step that was taken brought it an answer that does not |
| `ExecutionOutcomes.FittingAnswersFinish` | services/control-plane/internal/api/cloudflare_execution.go:178-271 | if everything the provider answers fits, every executed deployment ends succeeded or failed |
| `ExecutionOutcomes.DeclaredKindsFinish` | services/cloudflareprovider/errors.go:12-24 | with a provider client that keeps to the kinds it declares, and over PostgreSQL to identifiers a column admits, every executed deployment ends succeeded or failed |
| `UndisturbedExecutions.UnfitErrorSticks` | services/control-plane/internal/api/cloudflare_execution.go:260-271 | from every state with an executable deployment, every error that does not fit leaves it marked running in a run in which the provider answers that error and no other |
| `UndisturbedExecutions.UnfitIdentifierSticks` | services/control-plane/internal/api/cloudflare_execution.go:178-253 | over PostgreSQL, every released identifier that does not fit does so in a run without any error |
| `UndisturbedExecutions.UnfitErrorIsReachable` | services/control-plane/internal/api/cloudflare_execution.go:273-287 | for every error that does not fit, some run from the start in which the provider answers it and no other ends with a deployment still marked running |
| `UndisturbedExecutions.ExecutableSucceeds` | services/control-plane/internal/api/cloudflare_execution.go:94-253 | from every state with an executable deployment, an uninterrupted caller and an accepting provider bring it to succeeded with the released version recorded |
| `ExecutionOutcomes.DeclaredKindsFit` | services/cloudflareprovider/errors.go:12-24 | every declared kind is short enough and of code characters |
| `ExecutionOutcomes.FitsExactly` | services/control-plane/internal/api/cloudflare_execution.go:273-287 | an error fits exactly when its code does: a kind of at most 117 characters, over PostgreSQL code characters, or an error that is not the client's own |
| `SchemaInvariant.PostgresHoldsWhatItAdmits` | migrations/000003_cloudflare_execution.up.sql:4-43 | in every run over PostgreSQL, whatever the provider answers, every record and every version in the store is one the schema admits |
| `ExecutionHistory.GuardsDecide` | services/control-plane/internal/api/cloudflare_execution.go:94-130 | from every state, an uninterrupted call passes the guards exactly when the record is ready, its worker desires this version, the version is the worker's and known to the provider for a rollback, and the token is there; otherwise it is turned away |
| `ExecutionHistory.WinnersPassedTheGuards` | services/control-plane/internal/api/cloudflare_execution.go:94-150 | in every interleaving, whoever wins a deployment loaded it while ready, checked its worker while that desired this version, and checked version and token while they were there |
| `ExecutionHistory.SuccessWasReleased` | services/control-plane/internal/api/cloudflare_execution.go:178-271 | in every interleaving, a deployment that succeeded was validated by its winner and released by the provider, active and for this script, under the identifier it records |
| `ExecutionHistory.SuccessWasUploaded` | services/control-plane/internal/api/cloudflare_execution.go:178-253 | if it released a new version, the provider accepted the upload for this script and the store recorded it, under the identifier the deployment names |
| `ExecutionHistory.RollbackWasKnown` | services/control-plane/internal/api/cloudflare_execution.go:117-271 | if it rolled back, the version its winner checked was known to the provider under the identifier the deployment names |
| `ExecutionHistory.FailureWasMet` | services/control-plane/internal/api/cloudflare_execution.go:178-287 | in every interleaving, a deployment that failed records the code of a failure its winner met |
| `DeploymentExecutor.InvAlways` | services/control-plane/internal/api/cloudflare_execution.go:94-271 | what every step of every interleaving keeps: records, calls and winners agree |
| `RunbookLedger.LedgerObject.constructor` | services/connector/service/runbook_ledger.go:40-45 | an empty ledger with the default limit for a non-positive one |
| `RunbookLedger.LedgerObject.OldestCompleted` | services/connector/service/runbook_ledger.go:60-66 | the scan finds a completed entry or none; without an entry under the empty identifier, one that started first, and none exactly when nothing is completed |
| `RunbookLedger.LedgerObject.TryClaim` | services/connector/service/runbook_ledger.go:47-74 | one claim step, evicting an oldest completed entry only for a new job at the limit |
| `RunbookLedger.LedgerObject.Finish` | services/connector/service/runbook_ledger.go:76-85 | one complete step, taken only on the in-progress entry of the same scope |
| `RunbookLedger.LedgerHonoursClaims` | services/connector/service/runbook_handler.go:177-268 | in every run of the handler: no running job is evicted, completing takes effect, a replay is the last response of the same scope, the limit holds, and a claim is told the ledger is full only if the limit is below the number of places |
| `RunbookLedger.FullNeedsMorePlaces` | services/connector/service/runbook_handler.go:428-439 | a ledger full of running jobs needs more places than the ledger has entries |
| `RunbookLedger.FullIsReachable` | services/connector/service/runbook_ledger.go:59-71 | with fewer entries than places some run is told the ledger is full, so the condition is exact |
| `LedgerAnswers.ClaimAnswers` | services/connector/service/runbook_ledger.go:47-74 | in every run of the handler each answer to a claim has its own cause: a conflict for a job filed in another scope, busy exactly while a request runs it, the last response exactly when it is completed in this scope, and otherwise new, or full exactly at the limit with every entry in progress |
| `LedgerAnswers.ClaimLeaves` | services/connector/service/runbook_ledger.go:59-73 | only a new claim changes the ledger; at the limit it evicts one entry, completed and started no later than any other completed one, and everything else stays |
| `LedgerAnswers.CompleteLeaves` | services/connector/service/runbook_ledger.go:76-85 | completing changes exactly the entry in progress of the same job and scope |
| `LedgerAnswers.AcquireAnswers` | services/connector/service/runbook_handler.go:428-437 | a request gets a place exactly while fewer than all places are taken |
| `LedgerAnswers.LimitIsKept` | services/connector/service/runbook_ledger.go:40-45 | a positive limit is kept, any other becomes ten thousand |
| `SingleFlight.Client.constructor` | services/cloudflareprovider/client.go:110 | an empty cache |
| `SingleFlight.Client.OldestCompleted` | services/cloudflareprovider/idempotency.go:56-74 | the scan finds a completed entry created first, and none exactly when all are in flight |
| `SingleFlight.Client.Enter` | services/cloudflareprovider/idempotency.go:16-42 | the first lock region on the joined key: follow, refuse or lead, evicting only a completed entry and only at the limit |
| `SingleFlight.CacheKeysDiffer` | services/cloudflareprovider/idempotency.go:17 | different operations, scopes or keys never share an entry as long as the first two hold no NUL byte |
| `SingleFlight.RequestsDoNotCollide` | services/cloudflareprovider/operations.go:21-25 | the requests the client makes hold none there, so they never share an entry |
| `SingleFlight.Client.Publish` | services/cloudflareprovider/idempotency.go:44-54 | the second lock region: the outcome is published and a failure is forgotten |
| `SingleFlight.OneExecutionPerKey` | services/cloudflareprovider/idempotency.go:16-54 | in every interleaving at most one execution is in flight per key |
| `SingleFlight.CacheIsSound` | services/cloudflareprovider/idempotency.go:16-74 | in every interleaving an execution in flight keeps its own entry, a follower gets what the leader of the entry it followed returned, who had the same key and fingerprint, only successes stay cached and the limit holds |
| `SingleFlightAnswers.KnownKeyAnswers` | services/cloudflareprovider/idempotency.go:16-35 | in every interleaving a caller whose key is in the map waits exactly if its fingerprint is the leader's, and is otherwise told that the requests differ |
| `SingleFlightAnswers.NewKeyAnswers` | services/cloudflareprovider/idempotency.go:36-42 | in every interleaving a caller with a new key executes, unless the map is at its limit and an execution is in flight for every key in it; exactly then it is refused |
| `SingleFlightAnswers.EnterLeaves` | services/cloudflareprovider/idempotency.go:36-74 | a new entry costs at most one other, only at the limit, completed and created no later than any other completed one |
| `SingleFlightAnswers.FinishLeaves` | services/cloudflareprovider/idempotency.go:44-54 | finishing publishes the outcome in the caller's own entry, and the key stays in the map exactly after a success |
| `SingleFlightAnswers.CachedIsGiven` | services/cloudflareprovider/idempotency.go:16-35 | in every interleaving, while a success is cached the same request is given the value its leader returned, and nothing is executed |
| `RunbookCatalog.Build` | services/runbook/catalog.go:31-44 | the sealing loop yields the catalog's plan with every step sealed by its own content |
| `RunbookCatalog.PlanShape` | services/runbook/catalog.go:65-145 | every accepted plan is preflight and evidence, followed by apply and verify exactly when the action mutates |
| `RunbookCatalog.EveryActionHasAPlan` | services/runbook/catalog.go:12-44 | every action of the catalog has parameters it accepts, and only at its version |
| `RunbookCatalog.Stop` | services/runbook/executor.go:21-47 | the first step that does not go well |
| `RunbookCatalog.Execute` | services/runbook/executor.go:11-49 | refused exactly without a runner, for no steps or for a step whose seal does not match; otherwise the results are those of the steps up to and including the first bad one |
| `RunbookCatalog.ApplyIsGated` | services/runbook/executor.go:11-49 | for every action, parameters and runner: all results but the last succeeded, apply runs at most once, only for a mutating action and only after preflight and evidence succeeded, and the execution succeeds exactly when every step did |
| `RunbookCatalog.AcceptedExactly` | services/runbook/catalog.go:31-130 | there is a plan exactly for a catalog action at its version with each parameter given to just the actions that take it: a listed service, a listed timezone, a process identifier of at least 100 with its start tick |
| `RunbookCatalog.ResultsTellWhy` | services/runbook/executor.go:21-66 | every result names its step, has an error code exactly if it did not succeed, is canceled exactly after a timeout, a cancellation or the loss of its caller, and has the code of its cause |
| `RunbookScope.SameScope` | services/runbook/catalog.go:46-63 | equal canonical scope texts of accepted bindings mean equal action, version, host, job and parameters |
| `RunbookScope.SameTarget` | services/connector/service/runbook_handler.go:279-318 | equal canonical binding texts mean equal targets and key fingerprints |
| `RunbookScope.DigestPinsBinding` | services/connector/service/runbook_handler.go:279-303 | accepted bindings with equal digests are equal in every field, or the hash collides on the very texts hashed for them |
| `RunbookScope.ApprovalAdmitsOneBinding` | services/connector/service/runbook_handler.go:320-343 | two requests admitted under one approval bind the same operation on the same target, short of a hash collision, less than 15 minutes 30 seconds apart |
| `RunbookScope.AdmissionIsExact` | services/connector/service/runbook_handler.go:193-209 | a request for an accepted binding is admitted exactly during one interval of time, with an approval that was given for this very binding and digest and a reason; a plan that applies a change needs mutations enabled and an emergency grant besides, and any other must come without a grant |
| `RunbookScope.EveryBindingCanBeApproved` | services/connector/service/runbook_handler.go:320-343 | every accepted binding can be approved at any time, except a plan that applies a change while mutations are disabled |
| `ReplayCache.OnlyAcceptedIsRemembered` | services/connector-protocol/auth.go:125-187 | only an accepted request is remembered; every other call can at most forget expired nonces |
| `ReplayCache.VerdictIsExact` | services/connector-protocol/auth.go:125-187 | a request is accepted exactly when protocol, key, timestamp, nonce and signature are all good, the timestamp is at most the skew away, the nonce is not live and there is room; a replay exactly when all but the nonce is good |
| `ReplayCache.RefusalIsExact` | services/connector-protocol/auth.go:125-165 | each refusal names the first check that fails, and a request that is not well signed or not timely changes nothing |
| `ReplayCache.AcceptedIsInWindow` | services/connector-protocol/auth.go:125-187 | in every run every accepted call is well signed and its timestamp is at most the skew from its reading |
| `ReplayCache.CacheStaysWithinLimit` | services/connector-protocol/auth.go:171-186 | in every run the cache stays within its limit |
| `ReplayCache.AcceptancesAreApart` | services/connector-protocol/auth.go:166-186 | in every run two acceptances of one nonce are at least twice the skew apart, less the lag between reading the clock and taking the lock |
| `ReplayCache.ReplayOnlyAtTheEdge` | services/connector-protocol/auth.go:145-186 | a request is accepted twice only if its timestamp was within the lag of the upper edge of the window when first accepted |
| `ReplayCache.EdgeReplayIsAccepted` | services/connector-protocol/auth.go:145-186 | a request stamped exactly at the upper edge is accepted again exactly twice the skew later |
| `ReplayCache.LaggedReplayIsAccepted` | services/connector-protocol/auth.go:145-186 | every request within the lag of the edge is accepted again in some lagging run, for every cache with room for two more nonces and another request in the window |
| `ReplayCache.Verifier.constructor` | services/connector-protocol/auth.go:93-118 | an empty cache |
| `ReplayCache.Verifier.Check` | services/connector-protocol/auth.go:125-187 | one verification step: the checks in order, the pruning loop, and the insertion |
| `Leases.MemoryCoordinator.constructor` | services/persistence/coordinator.go:356-361 | an empty lease table |
| `Leases.MemoryCoordinator.AcquireLease` | services/persistence/coordinator.go:363-380 | one acquire step |
| `Leases.MemoryCoordinator.RenewLease` | services/persistence/coordinator.go:382-397 | one renew step |
| `Leases.MemoryCoordinator.ReleaseLease` | services/persistence/coordinator.go:399-408 | one release step |
| `Leases.AtMostOneLease` | services/persistence/coordinator.go:363-408 | at every instant of every run at most one unreleased, unexpired token per resource, each counted by its latest granted expiry |
| `Leases.RepliesAreExact` | services/persistence/coordinator.go:363-397 | a valid acquire is turned away exactly when some lease of the resource is in force, a valid renewal exactly when its own is not |
| `Leases.SupersededForever` | services/persistence/coordinator.go:363-408 | a token that is no longer current never becomes current again |
| `Leases.SupersededHolderIsPowerless` | services/persistence/coordinator.go:382-408 | from then on, renewing or releasing with it at any resource is refused and changes nothing |
| `Leases.GrantLasts` | services/persistence/coordinator.go:363-397 | from the acquire or renewal that granted it, and however the run goes on without renewing or releasing it, a lease is in force exactly until the time asked for has passed, and the table holds it for its owner all that while |
| `Leases.ReleaseFrees` | services/persistence/coordinator.go:399-408 | in every run a release succeeds exactly with the current token, so always while the lease is in force; it frees that resource and no other, and the next acquire of it is granted |
| `OutputBudget.Budget.constructor` | services/connector/sshconnector/client.go:302-304 | a full budget with no signal |
| `OutputBudget.Budget.Debit` | services/connector/sshconnector/client.go:315-322 | the budget's lock region takes as much as is left, at most what is asked |
| `OutputBudget.Budget.Raise` | services/connector/sshconnector/client.go:329-332 | the signal is raised and stays raised |
| `OutputBudget.BoundedBuffer.constructor` | services/connector/sshconnector/client.go:312 | an empty buffer on a shared budget |
| `OutputBudget.BoundedBuffer.Append` | services/connector/sshconnector/client.go:324-328 | the buffer's lock region appends exactly what it is given |
| `OutputBudget.BoundedBuffer.Write` | services/connector/sshconnector/client.go:314-334 | appends the longest prefix the budget allows, debits exactly that and signals exactly when something was cut |
| `OutputBudget.WriteIsThreeSteps` | services/connector/sshconnector/client.go:314-334 | an uninterrupted write is the debit, append and signal steps in order |
| `OutputBudget.BudgetIsConserved` | services/connector/sshconnector/client.go:295-334 | for every interleaving: kept plus in flight plus remaining is the limit, each stream keeps a prefix of what was sent, and the signal is raised or due exactly when more was offered than the limit |
| `OutputBudget.QuietBudget` | services/connector/sshconnector/client.go:295-334 | with no write in progress, everything up to the limit was kept and the signal tells whether anything was lost |
| `Ranking.CheckFindings` | services/ai/validation.go:20-50 | accepts exactly the findings that are each valid, few enough and distinct by identifier |
| `Ranking.CheckRanked` | services/ai/validation.go:70-82 | accepts exactly the known, in-range, accepted items without a repeated rank or finding |
| `Ranking.CheckVerification` | services/ai/validation.go:86-91 | checks every step and collects exactly the findings covered |
| `Ranking.CheckRecommendations` | services/ai/validation.go:92-97 | checks every recommendation and collects exactly the findings covered |
| `Ranking.CheckAnalysis` | services/ai/validation.go:52-102 | an accepted analysis of distinct findings ranks them 1..n without gap or repeat and covers each with a verification step and a recommendation |
| `Ranking.RankingByPigeonhole` | services/ai/validation.go:59-82 | as many distinct ranks and findings as there are leave none out |
| `Ranking.PassesIsSound` | services/ai/validation.go:52-102 | for distinct findings the counting checks accept exactly the sound analyses |
| `RankingFallback.RankedInOrder` | services/ai/fallback.go:9-26 | the fallback order is by severity, then confidence, then rule, a permutation, and stable |
| `RankingFallback.RankedByUrgency` | services/ai/fallback.go:9-26 | of any two ranked findings the earlier is at least as severe in the order critical, high, medium, low; at least as confident if equally severe; and not of a later rule if equally confident too |
| `RankingFallback.PriorityFollowsSeverity` | services/ai/fallback.go:42-86 | each recommendation is for the finding at its rank, with urgent, high, normal or low priority for a critical, high, medium or low severity |
| `RankingFallback.DeterministicAnalysis` | services/ai/fallback.go:8-58 | ranks the sorted findings 1..n with one verification step and one recommendation each |
| `RankingFallback.FallbackIsSound` | services/ai/fallback.go:8-86 | for all valid findings, and texts the filters accept for the severities, confidences and counts valid findings have, the fallback is sound, and the validator accepts it |
| `FallbackTexts.TextsPass` | services/ai/fallback.go:35-55 | the fallback's own texts keep the length limits and contain no execution syntax for all findings it can meet |
| `FallbackTexts.FallbackIsAccepted` | services/ai/validation.go:111-137 | with its own texts the fallback is accepted for all valid findings |
| `PagedStore.BuildComposite` | services/persistence/memory.go:29-38 | the builder loop writes the length-prefixed key |
| `PagedStore.CompositeInjective` | services/persistence/memory.go:29-38 | different lists of parts have different keys, whatever the parts contain and however many there are |
| `PagedStore.NormalizeLimit` | services/persistence/types.go:145-153 | a limit between 1 and 500 is kept, a non-positive one becomes 100 and a larger one 500 |
| `PagedStore.MemoryRepository.constructor` | services/persistence/memory.go:21-27 | an empty repository |
| `PagedStore.MemoryRepository.CreateAsset` | services/persistence/memory.go:40-52 | creates exactly the record named by installation and identifier, or answers invalid or conflict and changes no lookup |
| `PagedStore.MemoryRepository.UpdateAsset` | services/persistence/memory.go:84-100 | replaces exactly that record when the version matches and is followed by its successor on 64 bits |
| `PagedStore.MemoryRepository.DeleteAsset` | services/persistence/memory.go:102-115 | removes exactly that record when the version matches |
| `PagedStore.MemoryRepository.ListAssets` | services/persistence/memory.go:64-82 | a page is the first of exactly the stored records after the cursor, ascending by identifier |
| `PagedStore.ListingContinues` | services/persistence/memory.go:64-82 | the identifier of the last record seen leaves exactly the rest |
| `PagedStore.MemoryRepository.FollowAssets` | services/persistence/memory.go:64-82 | following the cursor terminates and returns every stored record of the installation exactly once, in order, for every page size |
| `PagedStore.MemoryRepository.AppendAudit` | services/persistence/memory.go:203-216 | appends a complete event, refusing a second one with the same identifier |
| `PagedStore.MemoryRepository.ListAudit` | services/persistence/memory.go:218-256 | refuses malformed installations and cursors; otherwise returns the page |
| `PagedStore.RemainingIsExact` | services/persistence/memory.go:230-250 | without limit a page holds exactly the recorded events that pass the filter, newest first, none twice |
| `PagedStore.CursorLeads` | services/persistence/memory.go:235-243 | an event's cursor leads on to exactly the rest, or back to the start if the event has the zero time |
| `PagedStore.AuditPagingIsComplete` | services/persistence/memory.go:218-256 | following the cursor returns every event once, newest first, and stops, exactly when no page ends in an event with the zero time; otherwise no number of requests is enough |
| `PagedStore.DatedAuditsAreComplete` | services/persistence/memory.go:218-256 | without events before the zero time, that is exactly when no event of the installation has the zero time |
| `PagedStore.ZeroTimeNeverEnds` | services/persistence/types.go:249-263 | a recorded event may carry the zero time, and a caller paging through it is never told to stop |

## Left out

- The web interface, HTTP and WebSocket handlers, SSH and DNS, TLS and configuration: transport around the modelled steps.
- Cryptography and encodings: SHA-256, HMAC, AES-GCM, Ed25519 and base64url appear as ideal or arbitrary functions.
- Regular-expression text filters, Unicode classes, shell commands and log wording: uninterpreted flags and predicates; the filter's regular expressions are taken to match none of the fallback's fixed texts.
- Memory wiping of secrets, cloning of records, panics and recovery: a claimed runbook is taken to reach completion.
- Roles, sessions, host validation, the job table and audit redaction: easier members of the same kind.
- Redis: leases are those of the in-process coordinator, and no agreement with Redis is claimed.
- Credentials and jobs of the in-process repository: the same shape as assets.
- Floating-point rounding and NaN: tokens, elapsed times and confidences are real numbers.
- Widths of counters other than record versions: sizes, ticks and lease lifetimes are unbounded.
- OutputBudget.BoundedBuffer.Write: states its three regions with no other write between them; `OutputBudget.BudgetIsConserved` states every interleaving of the regions.
- TicketStores.Broker.Shutdown: does not cancel sessions or wait for them, because sessions are transport.
- TicketStores.WebSSHManager.Shutdown: does not cancel sessions or wait for them, because sessions are transport.
- PostgresDeployments.WrittenRowReadsBack: times are the microseconds a column keeps; digits below are not modelled.
- Planning, versions and tokens over PostgreSQL: taken as the atomic steps of the in-memory store, with the provider columns left empty by an insert; only the deployment update is proved from its statements.
- PagedStore.MemoryRepository.ListAudit: a page with no writes between requests; concurrent writes during paging are not covered.
