# Routing, purchasing and hydration in Switchboard

Switchboard routes outbound text messages to phone numbers. A message of a grey-route profile goes to the
number its recipient already knows, to a number with capacity left, or, if there is none, is parked behind a
*phone number request*: the least loaded open one with room, or a new one. A request is bought a number step by
step, by jobs that each queue the next. When it has one, the parked messages are released at a bounded rate. A
redis index remembers how many messages every open request has; it is kept up to date by events and rebuilt from
the database on demand.

This project models those parts and proves what they promise, over all runs with any interleaving, failure or
retry the model admits.

| file | what it models |
|---|---|
| `Common`, `Sets` | options and outcomes; finite sets: least element, sizes |
| `ReleaseSchedule` | the running sum of segments and the `send_after` it gives |
| `PendingIndex` | the sorted set of open requests, its handlers and its recount |
| `Allocator` | grey-route messages, requests, awaiting and routing rows, events in flight: one state machine |
| `AllocatorInvariants`, `IndexRefinement`, `AllocatorBounds`, `OfferedBounds`, `LoadExcess`, `AllocatorTheorems`, `Stranding` | what all its runs keep |
| `AttainedBounds`, `Reoffering` | runs that reach the bounds, and when the offered requests stay few |
| `GreyRouteWorker` | the same worker as a class that updates its tables in place, proved to take the machine's steps |
| `Hydration`, `HydrationHistory` | check, lock, check again, hydrate all, set the flag: callers in many processes, and what the order of their commands says |
| `RedisIndex` | one call of it, and the handler registry, statement by statement |
| `Session` | a PostgreSQL session: transactions, savepoints, roles, aborted state, and the wrappers of `db.ts` |
| `Provisioning` | creating a sending location with its number request, all or nothing |
| `NumberClaim` | claiming and buying a number under the partial unique indexes |
| `PurchasePipeline`, `PipelineRuns`, `PipelineWorker` | the purchase jobs: one step, whole runs, and the worker in place |
| `AreaCodes` | the search for area codes with enough numbers |
| `Delimited`, `Tags`, `SendingLocations` | delivery-report tags; choosing a sending location |

Where the source works in place, a class or a method with loops is proved equal to a function or to steps of a
state machine, and the promises are proved of these. A run is any sequence of events; an event that cannot happen
is skipped.

Findings. These hold of the code as it is, and differ from what it suggests:

- `zrangebyscore … -1 limit` is inclusive, so a request takes up to `limit + 1` messages when routed one at a time, and
  up to `limit + w` with `w` decisions in flight (`AllocatorBounds.RowsBound`); some run parks exactly that many, for
  every limit from 0 and every `w` from 1 (`AttainedBounds.RowsBoundAttained`).
- A hydration recounts requests that were already fulfilled and withdrawn, and an increment is not applied to these.
  So the score of such a request, with all that is chosen for it, can exceed `limit + w`, by exactly one, and it can
  if and only if the limit is at least 1 and `w` at least 2 (`LoadExcess.LoadBound`, `AttainedBounds.ExceedsExactly`).
- For the same reason a hydration can offer as many requests at once as one likes, even with one decision in flight;
  they number at most `w` in all runs if and only if the limit is below 1 or nothing is ever in flight
  (`Reoffering.OfferedWithoutBound`, `Reoffering.FewOfferedExactly`).
- The branch that opens a new request inserts its row without looking at the request again. If the request is
  bought and resolved in between, the row waits behind a resolved request. Fulfilment queues three resolve jobs, and
  a later one still releases it; the row stays for good exactly if none of them is left
  (`Stranding.LeftBehindExactly`, `Stranding.LeftForGoodExactly`, with a run in `Stranding.OvertakenIsLost`).
- `withSavepoint` leaves its savepoint on the stack exactly when its handler ends normally in an aborted transaction, or
  has left one of the same name above it (`Session.SavepointReturnedExactly`, `Session.SavepointCanBeLeft`).
- A refused claim leaves its savepoint on the stack, once per refusal; the rollback still restores the right state
  (`NumberClaim.ClaimOutcome`).
- `getNextAction` has no breaks in its outer switch. Bandwidth falls into the Telnyx cases for one task, not on its own
  path (`PurchasePipeline.FallThroughExactly`), and the next action still ranks above the last
  (`PurchasePipeline.NextActionAdvances`).
- A message id or timestamp with a `|` in it does not come back from its tag (`Tags.RoundTripExactly`).

## Model

| member | source | states |
|---|---|---|
| `ReleaseSchedule.SlotsUpToBound` | src/jobs/resolve-messages-awaiting-from-number.ts:48-87 | However many messages a bought request had parked, the segments in slots 0..k total fewer than (k+1) times the throughput limit. |
| `ReleaseSchedule.SlotBound` | src/jobs/resolve-messages-awaiting-from-number.ts:48-87 | One slot releases at most limit - 1 segments more than the heaviest group of messages with one timestamp. |
| `ReleaseSchedule.ReleaseInOrder` | src/jobs/resolve-messages-awaiting-from-number.ts:53-87 | An earlier message is never sent later than a later one, ties are sent together, and none is sent before now. |
| `ReleaseSchedule.SendAfterExactly` | src/jobs/resolve-messages-awaiting-from-number.ts:53-87 | A message waits k intervals if and only if the segments of all messages created no later than it, its own and its ties' included, total at least k and less than k+1 times the limit; a limit below zero puts it k intervals before now. |
| `PendingIndex.FirstInRange` | src/lib/redis/existing-pending-request.ts:20-38 | The lookup finds a request with the least score in range, ties by member, and none if and only if no score at the location is in range. |
| `PendingIndex.LeastLoadedIsUnique` | src/lib/redis/existing-pending-request.ts:20-38 | No other member in range is least loaded, so this determines the lookup. |
| `PendingIndex.RequestIndex.FindExisting` | src/lib/redis/existing-pending-request.ts:20-38 | The request returned is in the inclusive range and none there is less loaded; none is returned if and only if every request of the location is out of range; nothing changes. |
| `PendingIndex.RequestIndex.OnRequestInserted` | src/lib/redis/existing-pending-request.ts:98-101 | A new request enters at score 0; everything else is untouched. |
| `PendingIndex.RequestIndex.OnMessageInserted` | src/lib/redis/existing-pending-request.ts:103-125 | A parked message adds one to its request's score, unless the request was marked fulfilled, when nothing changes. |
| `PendingIndex.RequestIndex.HandleFulfilment` | src/lib/redis/existing-pending-request.ts:151-166 | The request leaves the scores and joins the fulfilled set. |
| `PendingIndex.RequestIndex.Hydrate` | src/lib/redis/existing-pending-request.ts:39-94 | Recounted members are overwritten by their row counts, all others and the fulfilled set kept; the profile's contact limit is stored beside them. |
| `AllocatorInvariants.SoundStep` | src/jobs/process-grey-route-message.ts:80-315 | Every step, failures at any point included, keeps each submitted message in exactly one place, every reference to an existing request at its own location, and every addition under way out of the index. |
| `AllocatorInvariants.SoundAfter` | src/jobs/process-grey-route-message.ts:80-315 | So does every run from empty tables. |
| `IndexRefinement.InsertRefined` | src/lib/inserter.ts:59-65 | Inserting an awaiting row together with emitting its event keeps score plus events on the way equal to the rows. |
| `IndexRefinement.CountRefined` | src/lib/redis/existing-pending-request.ts:103-125 | Applying an increment keeps that equality. |
| `IndexRefinement.HydrateRefined` | src/lib/redis/existing-pending-request.ts:39-94 | A recount with no event on the way establishes it, whatever the index held before. |
| `IndexRefinement.IndexAgrees` | src/lib/redis/existing-pending-request.ts:39-125 | In every run, while the index is hydrated, each unfulfilled request is in it or being added, and its score plus the increments on the way is its number of awaiting rows. |
| `IndexRefinement.RehydrationIsIdle` | src/lib/redis/existing-pending-request.ts:39-94 | With nothing on the way, hydrating again changes the score of no unfulfilled request. |
| `IndexRefinement.HydrationAfterFlush` | src/lib/redis/redis-index.ts:102-104 | A flush empties the index and the hydrated profiles; a hydration right after it leaves exactly the requests that have rows or are unfulfilled, each with its number of rows, and none marked fulfilled. |
| `IndexRefinement.OverlapExactly` | src/lib/redis/existing-pending-request.ts:39-101 | What the assumption on hydrations keeps away: one that overlapped events on their way would leave score plus increments equal to the rows if and only if none of the request's increments were among them; an addition applied after it, only if all its rows were uncounted. |
| `AllocatorBounds.RowsBound` | src/jobs/process-grey-route-message.ts:208-314 | With at most w decisions in flight, no request ever has more than limit + w messages parked behind it, fulfilled or not, whatever was hydrated or flushed. |
| `AttainedBounds.RowsBoundAttained` | src/lib/redis/existing-pending-request.ts:20-38 | That bound is exact: for every limit from 0 and every w from 1, some run with at most w decisions in flight parks limit + w messages behind one request, and none more. |
| `LoadExcess.LoadBound` | src/lib/redis/existing-pending-request.ts:20-38 | In every such run the score of any request together with everything chosen for it, opening it or not yet counted is at most limit + w; if limit is at least 1 and w at least 2, it may be one more for a request a hydration has met fulfilled, which no unfulfilled one was. |
| `AttainedBounds.ExceedsExactly` | src/lib/redis/existing-pending-request.ts:39-125 | Some run exceeds limit + w if and only if limit is at least 1 and w at least 2; a run that does exceeds it by one. |
| `LoadExcess.DriftsAfter` | src/lib/redis/existing-pending-request.ts:103-125 | In every such run a request's rows are at most its score and its uncounted rows while no message has met it fulfilled; afterwards, if it is offered again, rows and openers are at most one more than the score. |
| `LoadExcess.RehydratedEntry` | src/lib/redis/existing-pending-request.ts:39-94 | A recount gives a request with rows, or an unfulfilled one, its number of rows as score, and leaves every other as it was. |
| `OfferedBounds.OfferedAreFew` | src/lib/redis/existing-pending-request.ts:28-35 | While the index is hydrated, the members with score up to the limit at a location, lingering fulfilled ones included, plus the decisions to open a request there, never number more than w, leaving aside members a hydration has met fulfilled. |
| `Reoffering.FewOfferedExactly` | src/lib/redis/existing-pending-request.ts:39-94 | Without leaving any aside, that holds in all runs if and only if the limit is below 1 or w is zero. |
| `Reoffering.OfferedWithoutBound` | src/lib/redis/existing-pending-request.ts:39-94 | Otherwise, for every n, a run with one decision in flight at a time ends hydrated with n requests offered at one location: each was bought with a row behind it, met fulfilled, and recounted. |
| `AllocatorBounds.PackedAfter` | src/jobs/process-grey-route-message.ts:208-291 | At every location the open requests that still have room, plus the decisions to open one, never number more than w, also when openers fail with their addition to the index under way. |
| `AllocatorBounds.FewRequestsOpen` | src/jobs/process-grey-route-message.ts:208-291 | All but w of a location's open requests hold at least limit + 1 rows, so they are at most w plus the parked rows over limit + 1. |
| `AllocatorBounds.SequentialPacking` | src/jobs/process-grey-route-message.ts:208-291 | With one decision at a time, of any two open requests of a location one holds exactly limit + 1 rows. |
| `AllocatorTheorems.MessagesConserved` | src/jobs/process-grey-route-message.ts:110-314 | From its submission on, in every run, a message is in exactly one of job queue, parked jobs, awaiting and routing rows, with the payload it was submitted with. |
| `AllocatorTheorems.AttemptsAfter` | src/lib/worker.ts:73-86 | In every run a message's job is attempted at most max_attempts times, waits only while attempts are left, and is parked only with its last one used. |
| `AllocatorTheorems.ResolveMovesItsRows` | src/jobs/resolve-messages-awaiting-from-number.ts:42-90 | Resolving moves exactly the request's awaiting rows, ids, payloads, locations and stages kept, as first messages of the day from the bought number, each due after as many intervals as the request's segments up to it hold limits; it takes one resolve job off the queue; every other row stays; with a zero limit and a row to divide nothing changes. |
| `AllocatorTheorems.ReleaseIsBounded` | src/jobs/resolve-messages-awaiting-from-number.ts:42-90 | The routing rows of a resolution that are due within k intervals carry fewer than (k+1) times the throughput limit in segments. |
| `Stranding.BehindStep` | src/jobs/process-grey-route-message.ts:219-314 | One step leaves a given row behind a resolved request if and only if its opener inserts it late, or it was there and no resolve job with a limit other than zero ran for that request. |
| `Stranding.StrandedStep` | src/jobs/process-grey-route-message.ts:219-314 | From a state without one, a step leaves a row behind a resolved request if and only if it is a late opener inserting its row. |
| `Stranding.StrandedExactly` | src/jobs/process-grey-route-message.ts:219-314 | No moment of a run has such a row if and only if no opener of the run inserts its row after its request was resolved. |
| `Stranding.LeftBehindExactly` | schema-dump.sql:2568-2588 | At the end of a run a row lies behind a resolved request if and only if its opener inserted it after the request was resolved and no resolve job with a limit other than zero ran since. |
| `Stranding.NoneLeftExactly` | schema-dump.sql:2568-2588 | A run ends with no such row if and only if after each late opener a resolve job cleared its request. |
| `Stranding.ClearedHasNoRows` | src/jobs/resolve-messages-awaiting-from-number.ts:42-90 | A resolve job that runs with a limit other than zero leaves no awaiting row of its request. |
| `Stranding.LaterResolveMovesLateRows` | src/jobs/resolve-messages-awaiting-from-number.ts:42-90 | A later resolve job moves exactly the rows inserted late since the last one that cleared the request. |
| `Stranding.SecondResolveIsIdle` | src/jobs/resolve-messages-awaiting-from-number.ts:42-90 | If no opener of a cleared request inserts in between, whatever else happens, its next resolve job moves nothing and only leaves the queue. |
| `Stranding.LeftForGoodExactly` | schema-dump.sql:2568-2588 | A row behind a fulfilled request stays there in every continuation if and only if none of the request's resolve jobs is left. |
| `Stranding.ThreeResolveJobs` | schema-dump.sql:2568-2588 | In every run a request has no resolve job until it is fulfilled; from then on those queued and those that succeeded or were parked are three. |
| `Stranding.OvertakenIsLost` | src/jobs/process-grey-route-message.ts:283-314 | A concrete run, for every limit and number of attempts: all three resolve jobs run between the two inserts of an opener, and its message is never released whatever follows. |
| `AllocatorTheorems.MeetingAFulfilledRequest` | src/jobs/process-grey-route-message.ts:237-250 | In any run, a message that chose a request which is fulfilled by now adds no row; the request is withdrawn from the index and the job waits for a retry or is parked. |
| `AllocatorTheorems.NotOfferedAgain` | src/lib/redis/existing-pending-request.ts:112-124 | Once withdrawn, a request is not offered again in any continuation without a flush or hydration, late increments included. |
| `GreyRouteWorker.Decision` | src/jobs/process-grey-route-message.ts:95-314 | The four-way decision of an uninterrupted run: the whole state it leaves, which is the one before with the message moved, with its number, location, stage and request, or its attempt counted or parked, the index hydrated first unless the recipient knows a number, and nothing else changed. |
| `GreyRouteWorker.Worker.ProcessGreyRouteMessage` | src/jobs/process-grey-route-message.ts:80-315 | The job in place, hydrating the index if it is not, ends in the state its events lead to, and ends normally if and only if the message left the job queue without being parked. |
| `GreyRouteWorker.Worker.RouteUnmapped` | src/jobs/process-grey-route-message.ts:143-314 | So do the branches for a recipient without a mapping, which first hydrate an unhydrated index. |
| `GreyRouteWorker.Worker.ParkMessage` | src/jobs/process-grey-route-message.ts:207-314 | So do its last two branches. |
| `GreyRouteWorker.Worker.ParkBehind` | src/jobs/process-grey-route-message.ts:219-274 | The guard and the insertion behind an existing request, as one block; a fulfilled request or one without a row fails the job. |
| `GreyRouteWorker.Worker.OpenAndPark` | src/jobs/process-grey-route-message.ts:277-314 | The new request, its event, and the row behind it. |
| `GreyRouteWorker.Worker.FailJob` | src/lib/worker.ts:73-86 | A thrown error leaves the job for its next attempt, or parks it at the last. |
| `GreyRouteWorker.Worker.InsertRouting` | src/jobs/process-grey-route-message.ts:110-141 | The message moves from the queue to a routing row. |
| `GreyRouteWorker.Worker.InsertAwaitingRow` | src/lib/inserter.ts:59-65 | The message moves from the queue to an awaiting row and its event is emitted. |
| `GreyRouteWorker.Worker.DeliverAdd` | src/lib/redis/existing-pending-request.ts:98-101 | Delivering a request's event is one step of a run. |
| `GreyRouteWorker.Worker.DeliverCount` | src/lib/redis/existing-pending-request.ts:103-125 | Delivering a message's event is one step of a run. |
| `GreyRouteWorker.Worker.HydrateIndex` | src/lib/redis/existing-pending-request.ts:39-94 | Hydration is one step of a run. |
| `GreyRouteWorker.Worker.ResolveMessages` | src/jobs/resolve-messages-awaiting-from-number.ts:40-93 | The releasing statement is one step of a run; it fails if and only if the throughput limit is zero and there is a row to release. |
| `Hydration.StepSound` | src/lib/redis/redis-index.ts:9-145 | Every step of any caller keeps lock, flag, hydrations under way, handlers and the counts in accord. |
| `Hydration.SoundAfter` | src/lib/redis/redis-index.ts:9-145 | So does every run of any number of callers. |
| `HydrationHistory.HydrationsBounded` | src/lib/redis/redis-index.ts:121-145 | In every run hydrations are recorded at most once more often than the flag was dropped, exactly once more while it is up, and begun at most that often plus once for each that failed, all counted over the commands sent. |
| `HydrationHistory.FlagMeansHydrated` | src/lib/redis/redis-index.ts:102-141 | If the flag is up, some call recorded the hydration after the last flush and the last removal of the flag, and between its second check, which found the flag down, and that record each index's hydration ended well, with no flush since the check. |
| `HydrationHistory.FlagMoves` | src/lib/redis/redis-index.ts:102-141 | A flush or a removal leaves the flag down, nothing else takes it down, and only a call's record raises it. |
| `HydrationHistory.ReturnedSawFlag` | src/lib/redis/redis-index.ts:121-145 | A call that returned saw the flag up at some moment after it arrived. |
| `HydrationHistory.FailedCallNeverRecorded` | src/lib/redis/redis-index.ts:9-23 | A call that fails, or holds the lock with an error to throw, never recorded a hydration. |
| `HydrationHistory.FlagSetByHolder` | src/lib/redis/redis-index.ts:132-141 | Whenever the flag goes up, it is the lock's holder that raises it, for its first time, after its second check found the flag down and each index's hydration ended well since, with no flush in between. |
| `Hydration.OneInside` | src/lib/redis/redis-index.ts:9-23 | No two calls are between lock and unlock. |
| `Hydration.HandlersMountedOnce` | src/lib/redis/redis-index.ts:67-98 | In a process the handlers of an index are mounted at most once, and exactly once as soon as a call has returned there. |
| `Hydration.NeverStuck` | src/lib/redis/redis-index.ts:9-145 | An unfinished call can take a step of its own, or waits for a holder that can. |
| `Hydration.MountedAll` | src/lib/redis/redis-index.ts:67-98 | Ensuring all handlers mounts every missing one once, also if two indexes share a name, and none again. |
| `RedisIndex.Process.ConstructMethodFromIndexSpec` | src/lib/redis/redis-index.ts:147-150 | Constructing a method registers its index last. |
| `RedisIndex.Process.CallReturnedMethod` | src/lib/redis/redis-index.ts:152-160 | The method it returns answers if and only if the profile is or gets hydrated and the index's own lookup does not fail, and only with all handlers mounted; the flag may have been dropped before the lookup. |
| `RedisIndex.Process.EnsureHandlers` | src/lib/redis/redis-index.ts:77-98 | Mounts an index's handlers unless it has none or they are mounted. |
| `RedisIndex.Process.EnsureAllHandlers` | src/lib/redis/redis-index.ts:67-75 | The loop does so for every registered index in order. |
| `RedisIndex.Process.EnsureHydrated` | src/lib/redis/redis-index.ts:121-145 | One call's redis commands, with any commands of other calls while it waits for the lock, are a run of the protocol; it succeeds if and only if neither check of the flag that it makes fails and the profile was hydrated before or meanwhile or every index and the record succeed, then with the flag set and all handlers mounted; otherwise flag and handlers are as the others left them, and the lock is given back. |
| `RedisIndex.Process.HydrateWithLock` | src/lib/redis/redis-index.ts:9-23 | The lock is free again however the locked part ends, and the flag is as that part leaves it. |
| `RedisIndex.Process.HydrateLocked` | src/lib/redis/redis-index.ts:132-141 | The locked part succeeds if and only if its check does not fail and finds the flag set or every index and the record succeed; it sets the flag if and only if it succeeds, and never drops it. |
| `RedisIndex.Process.HydrateAll` | src/lib/redis/redis-index.ts:136-137 | In whatever order the hydrations end, this ends normally if and only if every index hydrated. |
| `Session.ExecBracketed` | src/lib/db.ts:63-95 | Any nesting of savepoints, roles and statements that swallows no error gives back the savepoint stack, and the role unless it ends aborted. |
| `Session.SavepointIsAtomic` | src/lib/db.ts:63-78 | withSavepoint around such work is all or nothing: if it throws, data, role, stack and transaction state are those of the start. |
| `Session.SavepointReturnedExactly` | src/lib/db.ts:63-78 | With any handler that removes none of the savepoints it found, withSavepoint gives back the stack if and only if the handler does not end normally in an aborted transaction and leaves none of the same name above. |
| `Session.SavepointCanBeLeft` | src/lib/db.ts:63-78 | A handler that swallows a failing statement leaves one savepoint behind. |
| `Session.ThrownCommitsNothing` | src/lib/db.ts:34-61 | A transaction that throws, or whose work swallowed an error and left it aborted, leaves the connection as it was; any other commits its data and role. |
| `Session.SwallowedCommitsNothing` | src/lib/db.ts:34-61 | A transaction that swallows the error of a failing statement ends normally and commits nothing of what it did before. |
| `Session.FailedStatementAborts` | src/lib/db.ts:63-95 | A statement that fails changes neither data, role nor savepoints and leaves the transaction aborted, in which no statement but a rollback to a savepoint succeeds. |
| `Session.AbortedFails` | src/lib/db.ts:63-95 | In an aborted transaction every read, statement, withSavepoint and withRole throws and changes nothing. |
| `Session.DoneCommitsAll` | src/lib/db.ts:34-61 | One that ends normally, swallowing no error, has committed all its work. |
| `Session.Client.RunSavepoint` | src/lib/db.ts:68-68 | The savepoint statement as the session changes. |
| `Session.Client.RunRollbackTo` | src/lib/db.ts:73-73 | Rolling back restores data and role, keeps the most recent savepoint of the name and ends the aborted state. |
| `Session.Client.RunRelease` | src/lib/db.ts:76-76 | Releasing drops the most recent savepoint of the name and all above it, and fails in an aborted transaction. |
| `Session.Client.RunSetRole` | src/lib/db.ts:80-95 | Setting a role fails in an aborted transaction or if the login may not assume it. |
| `Session.Client.RunQuery` | src/lib/db.ts:34-61 | A failing statement aborts the transaction and changes no data. |
| `Provisioning.ProvisioningIsAtomic` | src/apis/graphql/ProvisionSendingLocations.ts:15-72 | Succeeds exactly for a new location of a grey-route profile, or of a 10DLC profile under its cap with an area code and a working insert; then adds the location and, for 10DLC, one request for its first area code; in every other case nothing changes, role and savepoints included. |
| `Provisioning.CapHolds` | src/apis/graphql/ProvisionSendingLocations.ts:41-60 | A mutation leaves any profile's request count, or adds one up to 49. |
| `Provisioning.OthersDoNotCount` | src/apis/graphql/ProvisionSendingLocations.ts:41-60 | Whether a mutation succeeds does not depend on the requests of other profiles. |
| `Provisioning.CapOverRuns` | src/apis/graphql/ProvisionSendingLocations.ts:15-72 | Over any sequence of mutations and failures no profile gets past the cap, no location gets a second request, and the role is kept. |
| `Provisioning.Resolve` | src/apis/graphql/ProvisionSendingLocations.ts:15-72 | The resolver, statement by statement, is that program. |
| `Provisioning.ResolveInside` | src/apis/graphql/ProvisionSendingLocations.ts:22-32 | The handler inside the savepoint. |
| `Provisioning.ResolveChannel` | src/apis/graphql/ProvisionSendingLocations.ts:34-67 | The three cases of the channel. |
| `Provisioning.RequestNumberAs` | src/apis/graphql/ProvisionSendingLocations.ts:41-66 | The guarded insert as the postgres role, and the way back to the original one. |
| `NumberClaim.ClaimOutcome` | src/jobs/purchase-number.ts:80-99 | A claim holds the number if and only if no other request that is unfulfilled, or without an order, as this one is, has it; otherwise the state from before is restored exactly, with one savepoint left over, whatever savepoints of the same name were there. One for a request without a row takes nothing. |
| `NumberClaim.FirstUsable` | src/lib/services/bandwidth/bandwidth-base.ts:92-105 | Every candidate before it is taken or live, and it is not. |
| `NumberClaim.PurchaseOutcome` | src/lib/services/bandwidth/bandwidth-base.ts:71-116 | The loop buys the first candidate neither taken nor live, as `+1` and its ten digits, unless claiming, ordering or saving fails, and runs out if and only if all are; numbers stay distinct across requests, no other row changes, an order is placed only while the request holds the number, and its id, or null, is saved. |
| `NumberClaim.RefusedOnlyForLostOrder` | src/jobs/purchase-number.ts:101-118 | Once a number is held, saving can be refused for it only if an order the request had is replaced by none. |
| `NumberClaim.TaskBuysOneNumber` | src/jobs/purchase-number.ts:120-156 | The task ends normally if and only if the first search's first usable candidate is ordered and saved, or all its candidates are taken or live, there is a fallback area code, and the same holds of that one's candidates; then the request has that candidate's number and order, which no other request holds, and nothing else has changed. |
| `NumberClaim.NumbersStayDistinct` | src/jobs/purchase-number.ts:70-157 | Over any run of openings, purchases and fulfilments, requests that are both unfulfilled or both without an order never hold one number, and a purchase commits the number and order it bought on its own request, or nothing. |
| `NumberClaim.PurchaseCommits` | src/jobs/purchase-number.ts:120-156 | Once its transaction has ended, a purchase has committed what the task bought, or left the tables as they were. |
| `NumberClaim.RunClaim` | src/jobs/purchase-number.ts:80-99 | The claim, statement by statement. |
| `NumberClaim.PurchaseNumber` | src/lib/services/bandwidth/bandwidth-base.ts:71-116 | The loop in place; claimed numbers are distinct at every loop head. |
| `NumberClaim.RunTask` | src/jobs/purchase-number.ts:145-155 | The task with its fallback. |
| `PurchasePipeline.NextActionAdvances` | src/jobs/queue-next-step-in-purchase-number-pipeline.ts:73-133 | For every service, flag and task the next action ranks above the completed task, fall-through included, and it is an error exactly for a registry account, and for Twilio after polling or associating a profile. |
| `PurchasePipeline.FallThroughExactly` | src/jobs/queue-next-step-in-purchase-number-pipeline.ts:73-133 | Bandwidth falls through for associating a profile alone, and then goes on as Telnyx; Telnyx never falls through. |
| `PurchasePipeline.WrappedTaskOutcome` | src/jobs/queue-next-step-in-purchase-number-pipeline.ts:154-203 | The transaction ends normally if and only if nothing fails, its last statement included, and there is a next action; then its work and the successor or fulfilment are committed together, else nothing. |
| `PurchasePipeline.RunJobOutcome` | src/lib/worker.ts:73-86 | Running a job settles the advanced tables or the untouched ones. |
| `PurchasePipeline.FailedAttemptChangesNothing` | src/lib/worker.ts:73-86 | A failed attempt leaves every request and every other job as they were; the job itself waits for a retry, or is parked at its last attempt. |
| `PipelineRuns.SuccessOutcome` | src/jobs/queue-next-step-in-purchase-number-pipeline.ts:185-198 | A successful attempt removes its job, stamps its request, and either fulfils it or queues exactly one successor for it. |
| `PipelineRuns.SingleToken` | src/jobs/queue-next-step-in-purchase-number-pipeline.ts:161-202 | In every run, whatever fails and whatever each attempt reads, each request has exactly one outstanding job, or is fulfilled with none, or has one parked job and no other. |
| `PipelineRuns.HistoryAfter` | src/jobs/queue-next-step-in-purchase-number-pipeline.ts:154-203 | In every run, a request's completions each queued the next, its stamps are those of its completions, it is fulfilled exactly after a last one, and an outstanding or parked job is for the task that follows. |
| `PipelineRuns.AtMostFourSuccesses` | src/jobs/queue-next-step-in-purchase-number-pipeline.ts:73-133 | Under adversarial reads no task of a request succeeds twice, at most four successes are needed, and an outstanding task ranks above everything done. |
| `PipelineRuns.PathNeverThrows` | src/jobs/queue-next-step-in-purchase-number-pipeline.ts:73-133 | On a service's own path there always is a next action, and the 10DLC flag decides at exactly one task. |
| `PipelineRuns.LogFollowsPath` | src/jobs/queue-next-step-in-purchase-number-pipeline.ts:73-133 | With one service throughout, completions are a prefix of its path, the whole path when the last one completes the purchase. |
| `PipelineRuns.HistoryOfService` | src/jobs/queue-next-step-in-purchase-number-pipeline.ts:185-198 | With one service throughout, stamps are exactly those of a prefix of its path; a fulfilled request has a number and every stamp of the path, the campaign's if and only if the decisive flag was set; and an outstanding job is for the next task and can always go on. |
| `PipelineRuns.FailingJobIsParked` | src/lib/worker.ts:73-86 | In every run, whatever other jobs do in between, a job is parked if and only if max_attempts of its attempts have failed; a queued one has failed as often as its attempts say, and fewer times than that. |
| `PipelineRuns.SucceedingJobIsNotParked` | src/lib/worker.ts:73-86 | In every run a job succeeds at most once, and then is neither queued nor parked; one that was ever queued still is if and only if it has not succeeded and has attempts left. |
| `PipelineWorker.Worker.OpenRequest` | src/jobs/process-grey-route-message.ts:283-291 | A new request comes with its purchase job. |
| `PipelineWorker.Worker.RunWrapped` | src/jobs/queue-next-step-in-purchase-number-pipeline.ts:161-202 | The wrapped task, statement by statement, is that program. |
| `PipelineWorker.Worker.Attempt` | src/lib/worker.ts:7-86 | One attempt in place, with commit or rollback and then removal, retry or parking, is one step of a run. |
| `AreaCodes.FindCandidateAreaCode` | src/lib/geo.ts:7-51 | The query at an offset gives an area code with a zip in scope that is not among the first ones, no other such code being nearer, and none if and only if there is none. |
| `AreaCodes.Enough` | src/jobs/find-suitable-area-codes.ts:45-93 | The shortest prefix of the candidates whose positive capacities reach the minimum, or all of them. |
| `AreaCodes.EnoughExactly` | src/jobs/find-suitable-area-codes.ts:45-93 | That length is the one at which the running sum of positive capacities first reaches the minimum, or all if it never does. |
| `AreaCodes.FindSuitableAreaCodes` | src/jobs/find-suitable-area-codes.ts:32-94 | The loop terminates with exactly the candidates of that prefix that have capacity, in order, same state first; on exit exactly these are saved if the minimum is positive, and each code is remembered with its last positive answer, any other as before. |
| `AreaCodes.WithCapacityExactly` | src/jobs/find-suitable-area-codes.ts:79-89 | The codes used stand at strictly increasing places of the candidates, which are all the places asked about whose capacity is positive. |
| `AreaCodes.PersistedExactly` | src/jobs/find-suitable-area-codes.ts:81-88 | A code's remembered capacity is its last positive answer, or what was known before if it has none. |
| `AreaCodes.FindOneSuitableAreaCode` | src/lib/geo.ts:53-89 | The first same-state candidate with capacity, none if and only if there is none. |
| `AreaCodes.OneAgreesWithMany` | src/lib/geo.ts:53-89 | For equal answers and a positive minimum, the code it finds heads the long search's result; if it finds none, that result has no code of the own state. |
| `AreaCodes.NearestFirst` | src/lib/geo.ts:26-47 | Any area code of the centre's state has no capacity, or is used, or only codes of that state at most as far away were consulted. |
| `AreaCodes.OtherStatesLast` | src/jobs/find-suitable-area-codes.ts:53-68 | Another state is consulted only if the whole own state is not enough, and then all of it with capacity is used; every area code of a zip in the own state is a candidate of that state, every one of a zip elsewhere a candidate of the others. |
| `Delimited.SplitPartition` | src/lib/services/bandwidth/bandwidth-base.ts:277-277 | The parts of a split are free of the separator and join to the string again. |
| `Tags.RoundTripExactly` | src/lib/services/bandwidth/bandwidth-base.ts:270-292 | A printed tag resolves to its message id and timestamp if and only if neither has a bar in it. |
| `Tags.TagsDiffer` | src/lib/services/bandwidth/bandwidth-base.ts:135-135 | Printing is injective on such pairs. |
| `Tags.TagsCanCollide` | src/lib/services/bandwidth/bandwidth-base.ts:135-135 | With bars, two messages share a tag. |
| `Tags.ErrorsExactly` | src/lib/services/bandwidth/bandwidth-base.ts:270-292 | A tag is an error if and only if it is not empty and the text before its first bar is not v1. |
| `SendingLocations.ChoosesNearest` | src/lib/redis/choose-sending-location-for-contact.ts:106-130 | The contact gets the nearest location of its own state, else the nearest of all, and none if and only if there is none. |
| `SendingLocations.FindsFirstInState` | src/lib/redis/choose-sending-location-for-contact.ts:119-122 | The search over encoded members finds the first location in the state. |
| `SendingLocations.GuessIsClosest` | src/lib/redis/choose-sending-location-for-contact.ts:71-99 | The guess is the zip code itself if known; else the first known one that shares its first three digits, its first two if none shares three, its first one if none shares two; and 68102 if none shares even that. |

## Left out

Assumptions:

- Crashes: a transaction's commit and the removal of its job are one step, and so are an insert and the emission of its event.
- Concurrency of transactions: statements of one transaction are not interleaved with another's, except that the grey-route worker's blocks interleave freely; checking a request and inserting behind it is one block, and so is each event handler.
- The hydration lock neither expires nor is flushed away, and the list of registered indexes is fixed while calls run.
- In the allocator hydration is one step that does not overlap events on their way to redis (`IndexRefinement.OverlapExactly` says what an overlap would do), the events of one request arrive in the order they were emitted, and between ensuring hydration and looking up the flag may be dropped but the index is not flushed.
- A request is fulfilled with a number, as the pipeline's history guarantees, so its resolve jobs are queued; how often one is retried before it is parked is open.
- Identifiers are integers ordered as redis orders members; there is one profile in the allocator, though the recount query spans all, and its contact limit does not change.
- `estimated_segments` is a natural number, and timestamps are integers.
- The insert that parks a failed job succeeds.

Contracts stated weaker:

- OfferedBounds.OfferedAreFew: leaves out requests that a hydration has met fulfilled, because with them it is false (`Reoffering.FewOfferedExactly`).
- GreyRouteWorker.Worker.RouteUnmapped: an unhydrated index is hydrated only when no events are on their way, as everywhere in the allocator.
- AllocatorBounds.PackedAfter: counts a request's load as its rows less the increments on the way, which is its score whenever the index is hydrated.
- RedisIndex.Process.EnsureHydrated: giving back the lock does not fail.
- AreaCodes.NearestFirst: distances are natural numbers rather than the geometric operator's reals.
- NumberClaim.PurchaseOutcome: the candidates, the answer of the live-number check and the order's id are inputs.
- SendingLocations.ChoosesNearest: the order by distance is an input; identifiers and states have no bar in them.

Not modelled:

- Hydrating and mounting with different lists of indexes in different processes.
- The lookup of an existing number with capacity, whose throughput logic is in Lua scripts, and the previous-mapping lookup: their answers are inputs.
- The index of sending locations after a rehydration, which keeps decommissioned members until a flush.
- The Telnyx purchase loop, whose unique violation aborts its transaction for lack of a savepoint.
- A transaction nested in another without the `inTransaction` flag, where the inner commit ends the outer.
- A purchase payload without a profile id, which fails the task like any other error, and the caches services and flags are read through: each attempt may read any.
- What polling an order and associating a profile or campaign do with the telco; they succeed, with their stamp, or fail.
- Errors of the telco while estimating capacities, which end the area-code search with what it has saved.
- Throughput accounting of numbers already bought, 10DLC and toll-free message routing, and the area code a new request gets.
- Triggers and migrations, except that a new request has one purchase job and a fulfilled one three resolve jobs: the capacity a fulfilment takes from its area code, and the number it adds.
- HTTP calls, webhooks, signatures, authentication, the GraphQL schema, metrics and logging.
