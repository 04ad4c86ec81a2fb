# Presence, logging and validation of the stay API, verified

The stay API keeps three pieces of real state: who is online (web sockets, a
Redis hash and one expiring key per user), a buffer of log entries that is
flushed to MongoDB, and the details object that the validation pipe fills. This
project models the three and proves what they keep over whole runs. It verifies
with Dafny 4.11 (`dafny verify dfyconfig.toml`).

## How it is built

**Presence.** `presence_state.dfy` is a machine with one Redis command per step.
A handler that is suspended at an `await` is a task in a bag, and so is an
expiry event that Redis has published and an instance has not yet received; any
task may move next. Any number of server instances share the hash and the keys.
`presence_safety.dfy`, `presence_drain.dfy`, `presence_eviction.dfy`,
`presence_lease.dfy`, `presence_views.dfy`, `presence_standpoint.dfy` and
`presence_settled.dfy` prove their theorems of this machine, so for every
interleaving. `presence_drift.dfy` runs it into a view that stays wrong.
`presence_atomic.dfy` is the coarser machine in which a handler runs from its first
line to its last; every run of it is proved to be a run of the fine one.
`presence_atomic_views.dfy` says when views follow the hash there, and
`presence_pongs.dfy` measures the lease by the moment a pong lands.
`presence_effects.dfy` spells out, for both machines, every field that a step
changes and every message that it sends.
`presence_service.dfy` and `presence_gateway.dfy` hold the classes with
their fields updated in place: each method is one whole handler and its contract
equates the state afterwards with the atomic machine's. `ttl_keys.dfy` is the
naming of the Redis keys.

**Logging.** `log_machine.dfy` splits a flush at its `await` into a start and a
success or failure, with any number of flushes in flight. `log_safety.dfy` holds
what every overlap keeps; `log_order.dfy` (acceptance order, an emptied buffer
after shutdown) and `log_queue.dfy` (a drop-tail queue) hold the stronger readings
with the exact condition under which each is met. `log_service.dfy` is the class.

**Validation.** `validation_paths.dfy` says declaratively which paths of a forest
of errors carry constraints and which key each gets; `validation_pipe.dfy` is the
recursive walk over a shared object, proved against it. `strings.dfy` is joining
and splitting, shared with the Redis keys.

A run is any sequence of steps; a step that its state does not allow changes
nothing. Quantities the code does not keep (every entry ever accepted, the trace
of insertions and removals) are carried along as history and never read by the
code's own branches.

## Assumptions

- Redis commands succeed; an expiry event reaches every instance, at any later
  time; a key does not expire before its deadline; a server process does not die
  with handlers suspended. The Redis service that the code imports is not part of
  the repository and is represented by its commands.
- A socket that closes does not open again. The `open` set holds the sockets that
  are or will be open, so connecting is not a step.
- User ids hold no colon: they are looked up in `users.id`, a UUID column
  (`database/psql/schemas/01_public_schema.sql:18`). `KeyRoundTrip` says what
  happens to ids in general.
- A successful unordered insert stores every document that the schema admits and
  silently skips the others, as mongoose does with `ordered: false`; a failed one
  stores any part of them.
- Redis expires an overdue key before it executes a SET on it. In the machine that
  is an `Expire` step just before the SET, in the coarser one just before the
  handler, so the runs considered include it.
- The lookup of a user is an outcome handed to `HandleMessage`.

## Where code and documentation differ

The model follows the code. `1_Requirements.md:420-424` has a background worker
flush the buffer; the code flushes from an interval timer in the same process.
"Critical errors logged immediately" holds of the attempt only: an error entry
whose insert fails goes back into the buffer and waits like any other.

Five things that one might expect of the code are false. Each is shown by a run
from the initial state, and each has its exact condition:

| expected | a run without it | it holds if and only if |
|---|---|---|
| buffer and batches are a drop-tail queue | `OverlapBreaksTheQueue`, `OneTooMany` | `DropTailIffInTurnAndFitting` |
| entries stay in acceptance order | `OlderFailureSwaps` | `OrderKeptIffNewestFailFirst` |
| on one instance a view comes right | `OneInstanceForgets` | `ComesRightIffHarmless`, `OneInstanceHarm` |
| so it does on several | `SecondInstanceIsNotHeard`, `SecondInstanceForgets` | `ComesRightIffHarmless`, `AgreesIffHeard` |
| whoever has a live key stays online | `LiveKeyButOffline` | `StaysOnlineIffSafe`, `OnlineIffNobodyUnsubscribes` |

A view comes right if, in whatever order the news now outstanding about the user is
delivered, in the end it agrees with the hash.

## Model

| member | source | states |
|---|---|---|
| PresenceSafety.NoPhantomOnline | src/modules/user-status/user-status.service.ts:67-78 | for every interleaving and number of instances: a user in the hash has a live key, or a setStatus that has yet to set it, or an expiry event not yet delivered, or an expiry removal in flight |
| PresenceSafety.RemovalsNeedInsertions | src/modules/user-status/user-status.message.ts:138-146 | between any two hDels that removed a user, by whichever handlers and instances, an hSet inserted the user again |
| PresenceSafety.OnlineConservation | src/modules/user-status/user-status.message.ts:140-146 | insertions minus removals of a user is 1 while online and 0 otherwise; expiry handlers broadcast OFFLINE exactly once per removal of theirs, hence never more often than the user was inserted |
| PresenceDrain.MeasureStep | src/modules/user-status/user-status.message.ts:135-148 | every hSet, set, expiry, delivery and expiry removal of a user uses up some of a measure that no other step raises, new setStatus calls apart |
| PresenceDrain.GoingOfflineTerminates | src/modules/user-status/user-status.service.ts:67-78 | without a new setStatus for a user only boundedly many steps concern the user, one can be taken as long as anything is left, and when nothing is left the user is offline |
| PresenceEviction.EvictedIffSilent | src/modules/user-status/user-status.message.ts:103-124 | a ping round evicts a tracked socket if and only if it stayed tracked since an earlier round without a pong and without a subscribe putting it into the map again |
| PresenceEviction.ClosedSocketGoneAfterTwoRounds | src/modules/user-status/user-status.message.ts:105-113 | a socket that sends nothing more and has no subscribe outstanding is untracked after two rounds and stays so |
| PresenceAtomic.AtomicIsASchedule | src/modules/user-status/user-status.message.ts:20-63 | every handler run without interruption does what its chain of commands and continuations does when executed in a row |
| PresenceAtomic.AtomicRunsAreRuns | src/modules/user-status/user-status.message.ts:65-101 | every run with atomic handlers ends in a state that some interleaved run ends in |
| PresenceViews.ViewsAreReadOffTheTrace | src/modules/user-status/user-status.message.ts:20-63 | for every interleaving and number of instances: an open tracked client believes a user online if and only if, since it was tracked, a broadcast of its own instance or an answer to it said so and no broadcast of its instance said otherwise after that; the user is online if and only if an hSet inserted it and no hDel removed it after that |
| PresenceSettled.ComesRightIffOnCourse | src/modules/user-status/user-status.message.ts:20-63 | every reachable state, interleaving and number of instances, per watcher and user: all orders in which the outstanding broadcasts, lists and answers can be delivered end with view and hash in agreement if and only if a condition on what the watcher was told and what is outstanding holds; when it does not, an order that ends in disagreement is constructed, and some complete order always exists (`CanBeDelivered`) |
| PresenceSettled.NextOnCourse | src/modules/user-status/user-status.message.ts:20-63 | which single steps break that, told from the state before: an hSet by a subscribe ahead of an OFFLINE that a watcher with a list will hear; a pong's hSet ahead of a list; an hDel ahead of an ONLINE or a list with the user; a change made elsewhere that matters to the watcher; joining, or asking for a list, while untrue news is outstanding |
| PresenceSettled.ComesRightIffHarmless | src/modules/user-status/user-status.message.ts:20-63 | from any reachable state that comes right, whatever went wrong before: the view comes right throughout a run if and only if no step of it is of that kind |
| PresenceSettled.RestingComesRight | src/modules/user-status/user-status.message.ts:36-38 | with nothing outstanding a view comes right if and only if it agrees with the hash: it holds only who is online, and with a full list lacks exactly whom a pong brought back unheard; at the start and while nobody watches it comes right |
| PresenceSettled.OneInstanceHarm | src/modules/user-status/user-status.message.ts:44-54 | on one instance, for a watcher with the list and none outstanding, the only harm is a subscribe of the user, or of the watcher for a new list, ahead of an OFFLINE, and a removal of the user ahead of an ONLINE |
| PresenceStandpoint.MissedMeaning | src/modules/user-status/user-status.message.ts:116-128 | brought back unheard: a pong inserted the user and since then nothing removed it, told the watcher of it or sent the watcher a list |
| PresenceDrift.OneInstanceForgets | src/modules/user-status/user-status.message.ts:47-54 | on one instance some run ends with all handlers finished, the user offline, and a watcher that was told OFFLINE and then ONLINE |
| PresenceDrift.ForgottenForGood | src/modules/user-status/user-status.message.ts:138-147 | such a watcher is never told, however often the user's key expires, until a handler about the user is started or the watcher goes |
| PresenceAtomicViews.AgreesIffHeard | src/utils/websocket/websocket.channel.ts:29-36 | atomic handlers, any number of instances: view and hash of a watcher and a user agree between all handlers of a run if and only if each change of the user's presence is made on the watcher's own instance or by a pong, or adds no user to a list it has and removes none it believes in |
| PresenceAtomicViews.ComesRightIffHeard | src/modules/user-status/user-status.message.ts:20-63 | the link to the interleaved theorem: between atomic handlers nothing is outstanding, so there a view comes right exactly if it agrees, and throughout a run exactly if every change is heard |
| PresenceAtomicViews.ViewsFollowTheHash | src/modules/user-status/user-status.message.ts:20-63 | hence on one instance always: what an open tracked client believes is online is; with a full list its view is the hash less exactly the users that a pong brought back unheard |
| PresenceAtomicViews.ViewIsTheHash | src/modules/user-status/user-status.message.ts:36-38 | if no pong inserted an absent user since the full list, the view equals the hash |
| PresenceEffects.SubscribeHas | src/modules/user-status/user-status.message.ts:20-42 | field by field and message by message: a subscribe leaves the client tracked and alive, a named user in the hash with a key of 15000 ms, the other open clients of the instance told ONLINE, and an open client answered with everyone online if it asked for that and otherwise with its own status |
| PresenceEffects.UnsubscribeHas | src/modules/user-status/user-status.message.ts:44-63 | the client is untracked and, if open, gets the acknowledgement, tracked before or not; only if it was tracked and names a user is that user taken out of the hash and told OFFLINE to the others; keys stay |
| PresenceEffects.ExpiryHas | src/modules/user-status/user-status.message.ts:140-146 | an expiry removes the user and is told to the open clients of the instance if the user was online |
| PresenceEffects.RunHas | src/modules/user-status/user-status.message.ts:20-63 | every command and stretch of code between two awaits: what it does to hash, keys, clients and each inbox, and which one follows it |
| PresenceEffects.StartHas | src/modules/user-status/user-status.message.ts:93-97 | a handler starts with its first Redis command under way and, for a pong, with the client marked alive; until then nothing else has happened |
| PresenceEffects.CloseHas | src/utils/websocket/websocket.gateway.ts:32-36 | a disconnect untracks the socket; a close by the server leaves it tracked until a ping round or a disconnect |
| PresenceEffects.ExpireHas | src/modules/user-status/user-status.service.ts:23-25 | a key is expired only at its deadline, and then each instance is sent exactly one event |
| PresenceAtomicViews.SecondInstanceIsNotHeard | src/utils/websocket/websocket.channel.ts:29-36 | a user who signs in on a second instance is never announced to a watcher on the first: view and hash disagree |
| PresenceAtomicViews.SecondInstanceForgets | src/modules/user-status/user-status.message.ts:140-146 | and the other way round: if the expiry handler of the second instance removes the user first, the watcher's own has nothing to report and the watcher keeps believing, with nothing left to run |
| PresenceLease.LeaseStarts | src/modules/user-status/user-status.message.ts:22-33 | a lease is taken by a subscribe whose SET is executed at most one interval before the next ping, whatever else happens, and however long it takes up to that ping, before its last stretch of code runs |
| PresenceLease.LeaseNeverLapses | src/modules/user-status/user-status.type.ts:5-6 | every interleaving, pings every 10 s, keys of 15 s: a leased socket that answers each ping by the next, and whose user's key is set strictly within 5 s of each, is never evicted and the key is live at every instant, whatever other clients and instances do |
| PresencePongs.TimelyPongsKeepTheLease | src/modules/user-status/user-status.message.ts:116-128 | atomic handlers: a subscribed socket whose pongs land strictly within 5000 ms of each ping, which come every 10000 ms, is never evicted and its user's key, which each pong renews, is live at every instant |
| PresencePongs.TimelyPongsKeepOnline | src/modules/user-status/user-status.message.ts:103-128 | from the subscribe on the socket stays tracked with a live key, and with no expiry event pending at the subscribe its user is online throughout if and only if no tracked client unsubscribes that user |
| PresenceLease.OnlineIffNobodyUnsubscribes | src/modules/user-status/user-status.message.ts:44-54 | such a user, online and with no expiry event pending, is online throughout the run if and only if no client's unsubscribe of that user is executed |
| PresenceLease.StaysOnlineIffSafe | src/modules/user-status/user-status.message.ts:135-148 | every responsive run of a leased user without such an unsubscribe keeps it online if and only if it is online at the start and no expiry event of it is pending |
| PresenceAtomic.OnlineHasKeyOrEvent | src/modules/user-status/user-status.service.ts:67-78 | with atomic handlers and any number of instances, an online user has a live key or an expiry event on its way |
| PresenceLease.LiveKeyButOffline | src/modules/user-status/user-status.service.ts:76-78 | two runs from the start in which a tracked socket's user has a live key and is offline: an expiry event delivered after the user came back, and an unsubscribe of that user by another client |
| PresenceService.UserStatusMessage.SubscribeMessage | src/modules/user-status/user-status.message.ts:20-42 | the object afterwards is in the state that `Subscribed` spells out, which is the atomic machine's |
| PresenceService.UserStatusMessage.UnsubscribeMessage | src/modules/user-status/user-status.message.ts:44-63 | the object afterwards is in the state that `Unsubscribed` spells out, which is the atomic machine's |
| PresenceService.UserStatusMessage.HandleMessage | src/modules/user-status/user-status.message.ts:65-101 | a known user is subscribed or unsubscribed as the message says, an anonymous client gets the full list or leaves, a malformed id closes with 4001, an unknown one with 4004, anything else changes nothing |
| PresenceService.MessageIsAStep | src/modules/user-status/user-status.message.ts:65-101 | the step of the atomic machine that each message is, and that this step does what the message asks for |
| PresenceService.UserStatusMessage.Ping | src/modules/user-status/user-status.message.ts:103-114 | the in-place round leaves exactly the clients that were alive, each marked non-alive and sent one ping frame |
| PresenceService.UserStatusMessage.Pong | src/modules/user-status/user-status.message.ts:116-132 | an untracked socket's pong does nothing; otherwise the client is alive and its user's status and key are renewed |
| PresenceService.UserStatusMessage.HandleRedisExpiration | src/modules/user-status/user-status.message.ts:135-148 | a key that does not begin with stay:user:status:ttl: has no effect; for one that does, the user it names is removed and the removal is told to the open clients |
| PresenceService.UserStatusMessage.BroadcastStatus | src/utils/websocket/websocket.channel.ts:29-36 | one message to every open tracked client but the connected one, none to anyone else |
| PresenceService.UserStatusMessage.DeleteClient | src/utils/websocket/websocket.channel.ts:19-25 | the socket is no longer tracked, everything else is as before |
| PresenceService.UserStatusService.SetStatus | src/modules/user-status/user-status.service.ts:67-74 | the field is set, the key is live for 15 s from now, nothing else changes |
| PresenceService.UserStatusService.DelStatus | src/modules/user-status/user-status.service.ts:76-78 | the field is gone and the count tells whether it was there; the key stays |
| PresenceService.UserStatusService.SearchStatuses | src/modules/user-status/user-status.service.ts:31-47 | the result names exactly those asked for who are online |
| PresenceService.UserStatusService.GetOnlineUsers | src/modules/user-status/user-status.service.ts:49-59 | the result names exactly the users in the hash |
| PresenceGateway.StayWebSocketGateway.HandleDisconnect | src/utils/websocket/websocket.gateway.ts:32-36 | every registered channel drops the socket and nothing else |
| PresenceGateway.StayWebSocketGateway.HandleMessage | src/utils/websocket/websocket.gateway.ts:38-52 | a message goes to its channel; one that does not parse or whose lookup throws closes with 1011, an unknown channel with 4004 |
| TtlKeys.StatusKey | src/modules/user-status/user-status.message.ts:136-138 | the guard admits exactly the keys that are stay:user:status:ttl: followed by something, and of such a key for an id without colon the id is read back |
| TtlKeys.KeyRoundTrip | src/modules/user-status/user-status.message.ts:136-138 | component 4 of a user's key is the user id if and only if the id has no colon, and otherwise what precedes its first colon |
| TtlKeys.TtlKeysDistinct | src/modules/user-status/user-status.service.ts:70 | distinct users have distinct keys |
| LogSafety.EveryEntryInOnePlace | src/modules/logging/logging.service.ts:37-52 | with any overlap, each accepted entry is exactly once in the buffer, in a batch in flight, acknowledged or dropped |
| LogSafety.StoredBetweenAckedAndAttempted | src/modules/logging/logging.service.ts:45-50 | an acknowledged entry is stored if and only if the schema admits it; no entry is stored more often than it was sent, whatever part a failed insert stored; every attempt was acknowledged, rejected or is in flight |
| LogSafety.ErrorsNeverWaitUntried | src/modules/logging/logging.service.ts:69-72 | an error entry found in the buffer has been part of an insert that failed |
| LogSafety.TickSendsEverything | src/modules/logging/logging.service.ts:31-35 | at a tick or at shutdown every entry accepted so far has been sent at least once |
| LogSafety.LogCallLogs | src/modules/logging/logging.service.ts:54-73 | a log call accepts one entry with every given field, and flushes if and only if it is an error or the hundredth in the buffer; the buffer and batches are otherwise as before |
| LogSafety.CompletionCompletes | src/modules/logging/logging.service.ts:45-51 | a rejected insert puts at most the first 100 entries of its batch in front of the buffer, a successful one leaves the buffer alone |
| LogSafety.CompletionStores | src/modules/logging/logging.service.ts:45-50 | of a batch exactly the entries the schema admits are stored by a successful insert, and exactly those of them that the database kept by a failed one |
| LogSafety.TimerRunsUntilShutdown | src/modules/logging/logging.service.ts:31-35 | in every run the timer is set exactly until the first shutdown |
| LogSafety.MemoryBound | src/modules/logging/logging.service.ts:50-72 | the buffer holds at most 99 entries, and at most 100 more for each flush that failed since the last log call or flush start |
| LogOrder.MemoryBoundIsTight | src/modules/logging/logging.service.ts:50-72 | for every number of failures some run reaches that bound exactly |
| LogSafety.LossNeedsTwoFailures | src/modules/logging/logging.service.ts:42-50 | a run with at most one failed flush drops nothing, and a batch of more than 100 entries can only be in flight after a failure |
| LogOrder.FailKeepsOrderIffNewest | src/modules/logging/logging.service.ts:50 | putting a failed batch back keeps acceptance order if and only if no later flush is in flight |
| LogOrder.OrderKeptIffNewestFailFirst | src/modules/logging/logging.service.ts:42-50 | buffer and batches stay in acceptance order throughout a run if and only if flushes that fail do so newest first |
| LogOrder.OlderFailureSwaps | src/modules/logging/logging.service.ts:50 | of two error entries in flight at once the older fails first and ends up behind the newer |
| LogQueue.InStepIffInTurn | src/modules/logging/logging.service.ts:37-52 | any number of flushes in flight: the oldest 100 entries accepted since the last success, and since the start of each flush in flight, are held in order and in front throughout a run if and only if successes come oldest first and failures newest first |
| LogQueue.DropTailIffInTurnAndFitting | src/modules/logging/logging.service.ts:42-72 | buffer and batches together: they are so in step, and the buffer is the first 100 entries accepted since the newest flush in flight started, or since the last success when none is, throughout a run if and only if besides what each failed flush puts back and what was logged meanwhile are at most 100 together |
| LogQueue.OldestHundredSurvive | src/modules/logging/logging.service.ts:37-52 | while flushes do not overlap, the oldest 100 entries accepted since the last success are held, in order and in front, through any failures and with log calls at any moment |
| LogQueue.DropTailQueue | src/modules/logging/logging.service.ts:37-72 | hence if each flush completes before the next operation, the buffer between operations is the first 100 entries accepted since the last success |
| LogQueue.OverlapBreaksTheQueue | src/modules/logging/logging.service.ts:37-52 | flushes completed out of turn: two overlapping ones leave an entry in the buffer that was accepted before the last success |
| LogQueue.OneTooMany | src/modules/logging/logging.service.ts:48-50 | a batch that does not fit, without overlap: a hundred entries sent, one more logged, the flush fails, and the buffer holds 101 |
| LogOrder.ShutdownDrainsIffNoFailure | src/modules/logging/logging.service.ts:114-120 | after shutdown the buffer stays empty if and only if no flush fails any more |
| LoggingServices.LoggingService.ApplicationLog | src/modules/logging/logging.service.ts:54-73 | the buffer and batches are what `LogCallLogs` says, the invariant is kept, and at most 99 entries stay buffered |
| LoggingServices.LoggingService.FlushLogs | src/modules/logging/logging.service.ts:37-46 | an empty buffer starts nothing, another is moved whole into one more batch |
| LoggingServices.LoggingService.InsertRejected | src/modules/logging/logging.service.ts:47-51 | at most the first 100 entries of the batch are put back in front of the buffer, and the batch is gone |
| ValidationPipes.ProcessValidationError | src/middleware/validation.pipe.ts:35-47 | the recursive walk adds to the shared object exactly the keys of the constrained paths below an error |
| ValidationPipes.GetExceptionObj | src/middleware/validation.pipe.ts:18-33 | no errors is an internal error; otherwise the details are those of the forest |
| ValidationPipes.DetailsAreTheConstrainedPaths | src/middleware/validation.pipe.ts:28-47 | a key is present, with the value invalid, if and only if it is the key of a path that ends at a node with constraints and is not `__proto__`, which a plain object does not take |
| ValidationPipes.DetailsIgnoreOrder | src/middleware/validation.pipe.ts:28-30 | reordering siblings at any depth does not change the details |
| ValidationPipes.DetailsDecode | src/middleware/validation.pipe.ts:36-40 | with names free of dots and no empty name above another, every key splits back into its path and there are as many keys as constrained paths |
| ValidationPaths.PathsAreConstrained | src/middleware/validation.pipe.ts:35-47 | the collected paths are exactly those along which the tree can be walked down to a node with constraints |
| ValidationPaths.KeyIsJoin | src/middleware/validation.pipe.ts:36 | the key built by nested prefixes is the names joined with dots, empty names in front of another left out |
| ValidationPaths.KeyDecodes | src/middleware/validation.pipe.ts:36 | splitting a key gives back its path if and only if no name holds a dot and no empty name comes before another at the front |

## Left out

- Booking, payment, coupons, reviews: documents and tables only, no code performs their transitions.
- auditLog and performanceMetric: single writes without buffer state.
- Queues, S3, Slack, mail, HTTP and database clients: wrappers around libraries; Redis and MongoDB appear as state and outcomes.
- JSON parsing, console output, the lookup query and the order in which a `Map` is visited: the results proved do not depend on them.
- Channel names that are built-in members of a plain object: the gateway finds something other than a channel there and closes with 1011; the model treats such a name as unknown.
- Lost Redis connections, failing commands and process crashes: handlers have no compensation for them, so a crash between hSet and set leaves a user online for good.
- Interleaving inside the classes: a method of a class is a whole handler; handlers suspended at an `await` are modelled on values, in `presence_state.dfy`, and `AtomicRunsAreRuns` is the link.
