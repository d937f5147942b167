# Ara Chat: verified model

Ara Chat is an instant-messaging back end: WebSocket servers that route chat messages to the
participants of a conversation, over Redis channels when a participant is connected elsewhere and
through an offline queue when nobody has them. This project models the parts of it that hold a
protocol, an index or a transformation, and proves what they are for.

Two shapes recur.

* A component whose steps interleave with other callers is a state machine: a `Step` datatype with one
  constructor per atomic operation (one SQL statement, one Redis command or atomic pipe, one access to a
  shared map), a function `Apply`, and `Run` over any sequence of steps. A step that is not enabled changes
  nothing, so every sequence is a run, and a theorem about `Run(steps)` is about every interleaving.
* The code of a handler is a class. Between its statements it calls `Interfere`, which lets everyone else
  take any number of steps, and its `Traced()` invariant says that the state it works on is the state some
  run leads to. What is proved of all runs therefore holds of the handler's code while others run beside it.

| file | component |
|---|---|
| `Delivery.dfy` | delivery across servers: the protocol and at-most-once delivery |
| `DeliveryAccounts.dfy` | who may receive a message, by which way, and what becomes of every recipient |
| `DeliveryReceipts.dfy` | which connections each step gives a message to, read off the connections and their filters |
| `DeliveryRaces.dfy` | overlapping drains of one queue, and which configurations deliver at most once |
| `Routing.dfy` | the message router's and cluster router's loops, refining the protocol |
| `Sessions.dfy` | the cluster's session sets |
| `OfflineQueue.dfy` | the bounded offline queue, alone and under concurrent pushers |
| `Connections.dfy`, `ConnectionRaces.dfy` | the connection table as an object, and its calls interleaved |
| `Subscriptions.dfy` | per-connection conversation filters |
| `Markdown.dfy` | span extraction against the tag tree |
| `CircuitBreaker.dfy` | the breaker, its counters and its trip rate |
| `Messages.dfy`, `Gdpr.dfy` | the life of a message: send, edit, recall, anonymise, delete |
| `History.dfy`, `SearchQuery.dfy` | cursor paging and the search-query printer |
| `EmailQueue.dfy` | the email processor, its retries and its hourly budget, batching |
| `EmailContents.dfy` | which messages an email brings when notifications join it meanwhile |
| `Presence.dfy` | presence subscriptions |
| `Compression.dfy` | frames and the size-limited decode loop |
| `Types.dfy`, `Sorting.dfy` | shared vocabulary; the stable sort |

UUIDs are natural numbers. Integers are unbounded except where the width matters, and there it is written
out: the connection counter (64 bits, wrapping), the breaker's millisecond clock (u64 subtraction), the
email limit (a u32 cast to i16).

## What the proofs found

Each of these is proved, with the exact condition where there is one.

* A per-user connection limit of 0 lets one connection in, because the limit is only compared for users
  that already have one (`UserLimitHoldsExactlyWhen`).
* The connection counter wraps below zero when a removal is discounted before its insert is counted, and
  then turns callers away although the table is empty (`TurnedAwayExactlyWhen`, `EmptyTableTurnsAway`).
* Delivery is at most once as long as no two drains overlap: reading a queue and deleting it are two commands,
  so two reconnects of one user on one server may both read a message, and a connection there receives it
  twice. Without a cluster router or without a queue it is at most once in every run (`AtMostOnceExactlyWhen`,
  `TwiceExactlyWhen`, `OverlappingDrainsDeliverTwice`).
* A message pushed between the two commands of a drain is in no queue and handed to nobody
  (`DrainsEverythingExactlyWhen`, `PushedTooLate`).
* A push to the offline queue that fails is only logged, so a routing call may succeed although a recipient was
  neither sent the message nor has it queued: everybody is served exactly when no push for the message failed
  (`EveryoneServedExactlyWhen`, `FailedPushLosesTheMessage`).
* An offline-queue bound of 0 trims nothing, since `LTRIM key -0 -1` keeps the whole list
  (`ZeroBoundKeepsEverything`, `BoundHoldsExactlyWhen`).
* An open breaker admits a call as soon as the clock steps back behind the last failure, because the
  subtraction wraps in a release build (`OpenAdmitsExactlyWhen`, `SteppingBackAdmits`).
* The email limit is compared as an i16: 32768 stops all mail, 65537 acts as 1
  (`LimitIsReadExactlyWhen`, `LimitIsMisread`, `NothingIsSent`).
* A cancelled email may still be sent if and only if the processor had already fetched it and the limit lets
  anything through (`CancelledMayBeSentExactlyWhen`, `CancelledTooLate`).
* A message that joins an email after the processor fetched it is in no mail of that attempt, because the update
  that joins it does not look at the status and the processor sends its copy. When the attempt succeeds the
  message is never mailed (`MayBeMailedExactlyWhen`, `SentIsFinal`, `JoinedTooLate`); two overlapping joins of one
  email lose a message outright (`OverlappingJoinsLoseAMessage`).
* Following history pages loses a message exactly when a page ends between two messages of one timestamp
  (`PagingIsExactWhen`).
* Escaping a search term twice is the same as once exactly when it holds no single quote (`EscapingTwice`).
* A presence subscription made between the two halves of a clear stays in the target's list until the
  subscriber itself subscribes to or unsubscribes from that target again; no later clear removes it
  (`WriteKeepsTheMirrorExactlyWhen`, `LeakSurvives`, `LeakEndsExactlyWhen`, `SubscriptionLeaks`).
* Anonymising a user keeps their id as the sender of messages they had already recalled (`DeletionErases`,
  `RecalledKeepsItsSender`),
  and fails as a whole when a client message id collides with one of an earlier anonymised user on the same
  day (`AnonymizationSucceedsExactlyWhen`, `SecondAnonymizationFails`).
* The cluster user count adds up sessions, so it counts a user once per server (`CountIsUsersExactlyWhen`,
  `TwoServersCountTwice`).
* List items always come out as unordered: `tag_to_context` builds every item context with `ordered: false`,
  although its comment says to look for the parent list to determine the flag. The hints are the documented ones
  exactly when no item of an ordered list is among them (`ItemFlagsAreRightExactlyWhen`,
  `NumberedItemComesOutUnordered`).

## Model

| member | source | states |
|---|---|---|
| DeliverySafety.AtMostOnce | src/domain/message/router.rs:69-158 | in every run over any number of servers, channels, queues and drains no connection receives a routed message twice, and one that has received it is owed no further copy by any component, as long as no two overlapping drains for its user on its server have read the message |
| DeliveryRaces.AtMostOnceExactlyWhen | src/domain/message/offline_queue.rs:144-185 | that holds in every run without any condition on drains if and only if there is no cluster router or no offline queue |
| DeliveryRaces.TwiceExactlyWhen | src/domain/message/offline_queue.rs:158-164 | when a drain reads the queue, a connection there may come to receive the message twice, with no further overlap, if and only if the message is still queued and another drain on that server has read it and not deleted it |
| DeliveryRaces.OverlappingDrainsDeliverTwice | src/api/websocket.rs:1118-1135 | a run in which a connection receives one message twice |
| DeliveryAccounting.OnlyRecipientsAndOnlyOneWay | src/domain/message/router.rs:103-115 | in every run only connections of participants who are neither the sender nor blocked receive a message, and a participant's copy is queued or sent to servers, never both |
| DeliveryCoverage.NoRecipientLeftBehind | src/domain/message/router.rs:103-136 | in every run with a cluster router and a queue, a routing call that has worked through its participants has, for every recipient, done exactly one of three: sent to it, queued for it, or failed to queue for it |
| DeliveryCoverage.EveryoneServedExactlyWhen | src/domain/cluster/router.rs:107-122 | every recipient of such a call has been sent the message or has it queued if and only if no push of it failed in the run |
| DeliveryCoverage.UnqueuedExactlyWhen | src/domain/cluster/router.rs:109-115 | in every run a payload is recorded as lost exactly when some step of the run is a failed push of it |
| DeliveryCoverage.FailedPushLosesTheMessage | src/domain/cluster/router.rs:109-115 | a run in which the call works through its one recipient and the message is in no queue and delivered to nobody |
| DeliverySafety.TaskPays | src/domain/cluster/router.rs:89-137 | every atomic action of the routing loops uses up a send the call still owed, so no branch sends or publishes beyond one per participant and server |
| DeliverySafety.PerformAt | src/domain/cluster/router.rs:140-175 | sending, publishing and queueing add to what connections have or may still get by no more than the action is charged for |
| DeliverySafety.HandleAt | src/domain/cluster/router.rs:178-194 | handling or losing a channel payload never raises a connection's received plus owed copies |
| DeliverySafety.SendDrainedAt | src/api/websocket.rs:1119-1135 | sending one drained message never raises a connection's received plus owed copies |
| DeliverySafety.ReadQueueAt | src/domain/message/offline_queue.rs:158-160 | reading a queue never raises a connection's received plus owed copies, unless another drain there has read the same message |
| DeliverySafety.DeleteQueueAt | src/domain/message/offline_queue.rs:162-164 | deleting the queue and handing over what was read never raises them |
| DeliverySafety.TrimQueueAt | src/domain/message/offline_queue.rs:93-95 | trimming a queue creates no copy, whatever the bound |
| DeliveryReceipts.ReceivesExactlyWhen | src/domain/message/router.rs:118-135 | a step gives a connection a message, once, exactly when it is open on that server for the user and the step is a local send of the routing call (the filtered one only when the connection never subscribed or subscribed to the conversation), the handling of the first payload of the channel, or the sending of the first drained message |
| DeliveryReceipts.ReceiptsAreGivings | src/domain/cluster/router.rs:178-194 | in every run a connection has received a message as often as steps of the run gave it, and not otherwise |
| DeliveryReceipts.SentReachesOpen | src/domain/connection/manager.rs:198-224 | a connection that is open and wants the conversation throughout has received what was sent there meanwhile |
| DeliveryReceipts.SessionsMean | src/domain/cluster/session_store.rs:62-112 | in the protocol a session joins or leaves one user's set and no other |
| Routing.RoutingServer.RouteMessage | src/domain/message/router.rs:69-158 | under every interleaving the routing call takes steps of the delivery protocol and ends; nobody whose drains are apart has the message twice; every recipient found here has been given it by a filtered send of the call, so every connection here that is open and wants the conversation throughout the call has received it; with a cluster router and a queue every recipient of a call that succeeds has been sent it, has it queued or was lost to a failed push, exactly one of these, and it is served exactly when no push for it failed; the push list is empty with a cluster router and otherwise holds exactly the unmuted recipients for whom `has_user` said no, in participant order, each answer being true at a moment of the call |
| Routing.RoutingServer.RouteParticipants | src/domain/message/router.rs:103-136 | the participant loop asks about every recipient, gives the message to the wanting connections of every one it finds here, and stops early only on a routing error of the cluster router |
| Routing.RoutingServer.RouteParticipant | src/domain/message/router.rs:116-135 | a recipient found here is sent the message by a step of the call that gives it to exactly the user's open connections here that want it; one not found is, with a cluster router and a queue, sent it, queued for, or lost to a failed push, unless the call fails; only the cluster router can fail it |
| Routing.RoutingServer.RouteToUser | src/domain/cluster/router.rs:89-137 | a user found at the second look is sent the message by a step that gives it to all the user's open connections here; otherwise, unless the session set cannot be read or a publish fails, it is sent or its push is tried when there is a queue; on an error the whole routing call is over |
| Routing.RoutingServer.RouteRemotely | src/domain/cluster/router.rs:102-136 | the session set is read at a moment of the call, or cannot be read and the call ends; when it is empty the push is tried if there is a queue and the call goes on either way; otherwise the message is sent to the servers listed unless a publish fails |
| Routing.RoutingServer.QueueForLater | src/domain/cluster/router.rs:107-122 | a user on no server has the message queued when a queue is configured and its push succeeds; when the push fails that is recorded and nothing is queued; the call goes on in every case |
| Routing.RoutingServer.ServeServers | src/domain/cluster/router.rs:124-134 | the listed servers are served one after the other, each by one step of the call's own in list order, all of them exactly when the loop succeeds |
| Routing.RoutingServer.ServeOne | src/domain/cluster/router.rs:125-133 | the next listed server is served by one step of the call, which gives the message to the user's open connections here or puts one payload on the other server's channel; without Redis exactly this server itself can be served |
| Routing.TookServes | src/domain/cluster/router.rs:125-133 | every step the server loop takes serves the server at the head of its list: all the user's open connections if it is this one, one more payload on its channel otherwise |
| Routing.RoutingServer.Forward | src/domain/cluster/router.rs:140-175 | a publish that succeeds puts one payload on the target's channel and needed Redis; one that fails leaves every channel alone and ends the routing call |
| Routing.RoutingServer.Deliver | src/domain/connection/manager.rs:118-126 | a local send gives the message, once, to exactly the user's open connections here, when filtered only to those that never subscribed or subscribed to the conversation, and nothing to anybody else |
| Routing.RoutingServer.HasUserHere | src/domain/connection/manager.rs:105-107 | answers whether some open connection is the user's on this server at this moment |
| Routing.RoutingServer.FindUserServers | src/domain/cluster/session_store.rs:114-123 | lists the servers of the user's session set, each once, in some order, or reports that the set cannot be read |
| Routing.RoutingServer.Store | src/domain/cluster/router.rs:109-118 | a push that succeeds, which needs Redis, makes the message the newest in the user's queue; one that fails leaves the queue alone; the call moves on either way |
| Routing.PushListNotifies | src/domain/message/router.rs:103-136 | the push list holds exactly the participants that are not the sender, not blocked, absent and not muted, in participant order |
| Sessions.RedisSessionStore.RegisterSession | src/domain/cluster/session_store.rs:62-87 | afterwards the server has the user, nothing else changed, and the two families of sets stay inverse |
| Sessions.RedisSessionStore.UnregisterSession | src/domain/cluster/session_store.rs:89-112 | afterwards the server does not have the user, nothing else changed, and the two families stay inverse |
| Sessions.RedisSessionStore.FindUserServers | src/domain/cluster/session_store.rs:114-123 | lists exactly the servers that have the user, each once |
| Sessions.RedisSessionStore.ClusterUserCount | src/domain/cluster/session_store.rs:152-172 | each server found has its set's size read at a moment of its own, later than the one before, and the total is their sum; when nothing registers meanwhile it is the number of users exactly when nobody is on two servers |
| Sessions.CountIsUsersExactlyWhen | src/domain/cluster/session_store.rs:26-27 | when the promised total user count is right, for inverse families of sets |
| Sessions.RunIsInverse | src/domain/cluster/session_store.rs:62-112 | after any sequence of registrations by any servers the two families of sets are inverse |
| Sessions.TwoServersCountTwice | src/domain/cluster/session_store.rs:152-172 | a run in which one user on two servers is counted twice |
| OfflineQueues.OfflineQueue.QueueMessage | src/domain/message/offline_queue.rs:71-108 | push and trim keep the last `max_messages_per_user` of the list, or all of it for a bound of 0; nothing without Redis |
| OfflineQueues.TrimKeepsLast | src/domain/message/offline_queue.rs:93-95 | `LTRIM key -n -1` keeps the last n, except that n = 0 trims nothing |
| OfflineQueueRaces.QueueHoldsTheLast | src/domain/message/offline_queue.rs:71-108 | under concurrent pushers the list is a suffix of what was pushed since the last drain, at least min(pushed, N) and at most N plus the pushers between their two steps long |
| OfflineQueueRaces.BoundHoldsExactlyWhen | src/domain/message/offline_queue.rs:71-108 | that holds in every run if and only if the bound is at least 1 |
| OfflineQueueRaces.DrainInPushOrder | src/domain/message/offline_queue.rs:144-185 | a drain hands over, in push order, at least the last N messages pushed between the deletion before and its own read; the queue is empty afterwards, so what was pushed between its read and its deletion is gone |
| OfflineQueueRaces.DrainsEverythingExactlyWhen | src/domain/message/offline_queue.rs:158-164 | when no message is pushed twice, a drain hands over the end of everything pushed since the drain before if and only if nothing was pushed between its read and its deletion |
| OfflineQueueRaces.PushedTooLate | src/domain/message/offline_queue.rs:158-164 | a run in which a message pushed between the two is neither queued nor handed over |
| OfflineQueueRaces.ZeroBoundKeepsEverything | src/domain/message/offline_queue.rs:93-95 | with a bound of 0 the queue grows without limit |
| ConnectionTable.IndexAgreesWithTable | src/domain/connection/manager.rs:41-102 | after any sequence of register, unregister and cleanup each user's list holds exactly that user's connections once, no list is empty, the counter equals the table size and the sum of the list lengths, and the total limit holds |
| ConnectionTable.UserLimitHoldsExactlyWhen | src/domain/connection/manager.rs:49-55 | the per-user limit holds in every run if and only if it is at least 1 (or nobody may connect at all) |
| ConnectionTable.RegisterKeepsAgreement | src/domain/connection/manager.rs:41-77 | an accepted registration keeps map, index and counter in agreement and within the limits |
| ConnectionTable.LetsInExactlyWhen | src/domain/connection/manager.rs:41-55 | a caller is let in if and only if the table is below its limit and the user has no connection or fewer than the user's limit; the total limit is reported exactly when the table has reached it |
| ConnectionTable.EvictKeepsAgreement | src/domain/connection/manager.rs:80-102 | removing any set of connections keeps them in agreement and lengthens no list |
| ConnectionTable.EvictTwice | src/domain/connection/manager.rs:171-188 | cleanup may remove its connections in any order |
| ConnectionTable.EvictOneIsEvict | src/domain/connection/manager.rs:80-102 | touching only the one user's list is removing the connection everywhere |
| ConnectionManagement.ConnectionManager.Register | src/domain/connection/manager.rs:41-77 | lets in exactly a caller with room, counted in connections, and says which limit turned another one away; then the connection is in table, list and count, and nothing else changed |
| ConnectionManagement.ConnectionManager.Unregister | src/domain/connection/manager.rs:80-102 | returns the connection and removes every trace of it; an unknown id changes nothing |
| ConnectionManagement.ConnectionManager.CleanupStaleConnections | src/domain/connection/manager.rs:171-188 | exactly the connections whose receiver is still there remain, and the count is the number removed |
| ConnectionManagement.ConnectionManager.SendToUserFiltered | src/domain/connection/manager.rs:198-224 | each open connection of the user whose filter accepts gets the message once, nobody else does, and the count is theirs; for a non-system message those are exactly the open connections whose request history never subscribed or last joined the conversation |
| ConnectionManagement.ConnectionManager.SendToUser | src/domain/connection/manager.rs:118-126 | each open connection of the user gets the message once, nobody else does |
| ConnectionManagement.ConnectionManager.ReachedMeans | src/domain/connection/manager.rs:198-224 | a send is for a connection exactly when it is the user's, open, and the message is a system message or its filter is in legacy mode or holds the conversation |
| ConnectionManagement.ConnectionManager.SystemMessageReaches | src/domain/connection/subscription.rs:134-147 | a system message is for exactly the user's open connections |
| ConnectionManagement.DeliveredMeans | src/domain/connection/manager.rs:118-126 | a send puts the message once at the end of what each of those has been given and changes nobody else's |
| ConnectionManagement.ConnectionManager.HasUserMeansConnected | src/domain/connection/manager.rs:105-107 | the index lookup says yes exactly when some connection of the user is in the table |
| ConnectionManagement.ConnectionManager.ReachedByHistory | src/domain/connection/manager.rs:198-224 | a non-system message is for exactly the user's open connections that never subscribed or whose last effective change for the conversation was a subscribe |
| ConnectionManagement.ConnectionManager.SubscribeConnection | src/api/websocket.rs:1348-1424 | a connection's subscribe request becomes one more entry of its own history and is answered with the new ids that fit; every other connection keeps its history and filter, and the table and every promise of the manager stay; an unknown connection changes nothing |
| ConnectionManagement.ConnectionManager.UnsubscribeConnection | src/api/websocket.rs:1432-1460 | likewise for an unsubscribe request, answered with the ids that were subscribed |
| ConnectionRaces.BoundedOvershoot | src/domain/connection/manager.rs:41-77 | with at most N registers in flight the table never exceeds max_connections + N - 1, in every interleaving |
| ConnectionRaces.OvershootIsAttained | src/domain/connection/manager.rs:41-77 | that bound is reached by some interleaving, for every limit of at least 1 and every N |
| ConnectionRaces.CounterAccounts | src/domain/connection/manager.rs:41-102 | in every state the counter is the table size less inserted-but-uncounted plus removed-but-undiscounted connections, in 64 bits |
| ConnectionRaces.TurnedAwayExactlyWhen | src/domain/connection/manager.rs:44-47 | the total check turns a caller away exactly at the limit or while the counter has wrapped below zero |
| ConnectionRaces.EmptyTableTurnsAway | src/domain/connection/manager.rs:80-102 | a run in which a caller is turned away from an empty table |
| Subscriptions.ConnectionSubscriptions.Subscribe | src/domain/connection/subscription.rs:71-91 | adds new ids of the request, each once, in the order they first appear, as many as fit, one left out having found the limit reached; reports them and switches to explicit mode |
| Subscriptions.ConnectionSubscriptions.Unsubscribe | src/domain/connection/subscription.rs:96-109 | removes exactly the requested ids, reports those that were subscribed, each once, in the order they first appear, and leaves the mode |
| Subscriptions.FilterMatchesHistory | src/domain/connection/subscription.rs:57-147 | explicit mode starts with the first subscribe and is never left, the limit holds, and a conversation is subscribed exactly when its last effective change was a subscribe |
| Subscriptions.AddedFitsExactly | src/domain/connection/subscription.rs:71-91 | the ids added are the first distinct new ones that fit |
| Subscriptions.ReceivesByHistory | src/domain/connection/subscription.rs:134-147 | a system message passes every filter; what else a connection receives, read off its request history |
| Types.DistinctNewMembers | src/domain/connection/subscription.rs:71-91 | the newly added ids are the requested ones not known before, each once, in the order they first appear |
| Subscriptions.DistinctKnownMembers | src/domain/connection/subscription.rs:96-109 | the removed ids are the requested ones that were known, each once, in the order they first appear |
| Markdown.ParseMarkdown | src/domain/markdown/parser.rs:17-65 | the loop computes the stack machine's run up to the span limit; its spans come out by increasing start, those of one start in the order they were found; `has_formatting` exactly when there are spans |
| Markdown.PopMatchingContext | src/domain/markdown/parser.rs:143-169 | removes the topmost matching context and no other, or reports that there is none |
| MarkdownTree.ParseExtractsPostOrder | src/domain/markdown/parser.rs:17-65 | for the event stream of any tag tree the result is exactly the first 100 entries of the post-order list of its span-producing nodes, each with its own tag's start and end, by increasing start, those of one start in post-order |
| MarkdownTree.CloseUndoesOpen | src/domain/markdown/parser.rs:143-169 | in a well-nested stream an end event always pops the top of the stack, the context its own start pushed |
| MarkdownTree.RunOverTree | src/domain/markdown/parser.rs:28-56 | the events of a whole tree leave the context stack as it was and append the tree's spans |
| MarkdownTree.HintsAreLaminar | src/domain/markdown/parser.rs:24-64 | when ranges nest as the tree does the spans are at most 100, by increasing start, and any two are disjoint or nested |
| MarkdownTree.HintsOfSpans | src/domain/markdown/parser.rs:58-64 | the hints are a rearrangement of the first hundred spans by increasing start: none of them lost, repeated or invented, and those of one start in the order they had |
| MarkdownTree.TagsComeOutAs | src/domain/markdown/parser.rs:84-141 | what an element of each tag comes out as, from its own start to its own end; lists and untracked tags give no span |
| MarkdownTree.OuterComesFirst | src/domain/markdown/parser.rs:58-59 | an example: strong text around emphasis gives the bold span first |
| MarkdownTree.ItemFlagsAreRightExactlyWhen | src/domain/markdown/parser.rs:135-138 | the hints are the ones documented, each item marked by its enclosing list, if and only if no item of an ordered list is among the first hundred spans; for short texts, if and only if no ordered list has an item |
| MarkdownTree.NumberedItemComesOutUnordered | src/domain/markdown/parser.rs:135-138 | a numbered list of one item comes out as unordered |
| Sorting.SortIsTheOnlyStableSort | src/domain/markdown/parser.rs:58-59 | `sort_by_key` is pinned down: a sequence is the result exactly when it is sorted and keeps the order of equal keys |
| CircuitBreaking.CircuitBreaker.IsAvailable | src/infrastructure/circuit_breaker.rs:110-132 | admits unless open within the timeout as the wrapping subtraction sees it, and an admission while open moves to half-open with both counters cleared; nothing else changes |
| CircuitBreaking.CircuitBreaker.RecordSuccess | src/infrastructure/circuit_breaker.rs:182-200 | closes the circuit exactly as the last missing probe of a half-open one, clears the failures of a closed one and leaves an open one alone |
| CircuitBreaking.CircuitBreaker.RecordFailure | src/infrastructure/circuit_breaker.rs:203-229 | stamps the time and opens the circuit unless it is closed with the failures still below threshold |
| CircuitBreaking.CircuitBreaker.FinishCall | src/infrastructure/circuit_breaker.rs:146-162 | an error and a timeout count as failures: they stamp the time and open the circuit unless it is closed and still below threshold; a success closes a half-open one as its last missing probe |
| CircuitBreaking.CircuitBreaker.Reset | src/infrastructure/circuit_breaker.rs:307-309 | closes the circuit and clears the counters; on a closed circuit it clears nothing |
| CircuitBreaking.CircuitBreaker.ForceOpen | src/infrastructure/circuit_breaker.rs:312-315 | opens the circuit without touching the time of the last failure |
| CircuitBreakerRuns.CountersEqualHistory | src/infrastructure/circuit_breaker.rs:182-284 | in every reachable state the counters are what history says: failures since the last success or closing, successes since half-open, each below its threshold, reset and force_open included |
| CircuitBreakerRuns.CircuitEqualsHistory | src/infrastructure/circuit_breaker.rs:110-229 | in every run the last operation has made the circuit what history says: open after a failure unless closed with a short streak, closed after the last missing probe, half-open after a check of an open one whose timeout seems to have passed, closed after reset, open after force_open, and otherwise as it was |
| CircuitBreakerRuns.FailedProbeTrips | src/infrastructure/circuit_breaker.rs:221-224 | a failed probe is a trip, and with a clock that does not go back no call is admitted, whatever follows, until more than reset_timeout after it |
| CircuitBreakerRuns.StaysOpen | src/infrastructure/circuit_breaker.rs:110-132 | an open circuit stays open, whatever follows but manual intervention, until the timeout has passed since its failure |
| CircuitBreakerRuns.TripRateBound | src/infrastructure/circuit_breaker.rs:110-132 | trip j comes at least (j - i) * (reset_timeout + 1 ms) after trip i, in any run of overlapping calls without manual intervention |
| CircuitBreakerRuns.OpenHoldsForTheTimeout | src/infrastructure/circuit_breaker.rs:110-132 | with a clock that does not go back an open circuit admits exactly when more than reset_timeout has passed since the last failure, which is never before the last trip |
| CircuitBreakerRuns.OpenAdmitsExactlyWhen | src/infrastructure/circuit_breaker.rs:114-127 | for any clock: the timeout has passed, or the clock stepped back and the subtraction wrapped |
| CircuitBreakerRuns.SteppingBackAdmits | src/infrastructure/circuit_breaker.rs:114-127 | one millisecond back is enough to admit a call right after a trip |
| MessageLifecycle.RecallIsFinal | src/domain/message/storage.rs:193-212 | once deleted_at is set, content, sender and deleted_at never change while the row exists, in every interleaving of edits, recalls and anonymisations, and the content is a placeholder |
| MessageLifecycle.OnlyTheAuthorRewrites | src/domain/message/handler.rs:188-312 | what a message says changes only while it lives, by its author's edit or recall checked within the window or by its author's anonymisation; it disappears only by its sender's hard deletion |
| MessageLifecycle.RepliesFormAForest | src/domain/message/storage.rs:556-581 | following replies upward goes from each message to the one it replies to, visits none twice, stays in one conversation, only gets older, and ends |
| MessageLifecycle.ClientIdsStayUnique | src/domain/message/handler.rs:73-83 | however sends race, a client message id names at most one message of a sender per day |
| MessageLifecycle.ClientIdNamesOneMessage | src/domain/message/handler.rs:73-83 | two messages of one sender with one client id are of different days, in every run |
| MessageLifecycle.RunIsSound | src/domain/message/handler.rs:105-140 | in every run what a handler's check established still holds when its write finds the message live |
| MessageHandling.MessageHandler.HandleSend | src/domain/message/handler.rs:58-140 | its refusals in order; a repeated client id returns a message of the sender with that client id and writes nothing; a reply is judged by the table as it is at the validation; the insert adds one row under a fresh id with the draft's columns and the valid mentions and changes no other, or is a conflict, exactly when the sender has the client id already that day, that leaves the table alone, whatever ran between the three statements |
| MessageHandling.MessageHandler.FinishSend | src/domain/message/handler.rs:104-140 | the same from the validation on |
| MessageHandling.MessageHandler.HandleEdit | src/domain/message/handler.rs:188-252 | its refusals in order; a message the write finds live is still the caller's and afterwards says the new content with the valid mentions, every other column and row as it was, and that content is the answer; otherwise not-found and no change |
| MessageHandling.MessageHandler.HandleRecall | src/domain/message/handler.rs:269-299 | its refusals in order; recalling a recalled message succeeds and changes nothing; a message the write finds live is still the caller's and afterwards says "[Message recalled]" and is deleted at that moment, every other column and row as it was; otherwise not-found and no change |
| MessageHandling.EditAllowedExactlyWhen | src/domain/message/handler.rs:188-214 | an edit passes its checks if and only if the message is there, the caller's, not recalled and within the window, and which refusal comes otherwise |
| MessageHandling.RecallAllowedExactlyWhen | src/domain/message/handler.rs:269-293 | a recall goes ahead if and only if the message is there, the caller's, not recalled and within the window, and has nothing to do if and only if it is the caller's and recalled |
| MessageHandling.InvalidReplyMeans | src/domain/message/storage.rs:556-581 | a reply is invalid exactly when its target is missing, recalled or deleted, or in another conversation |
| MessageHandling.MessageHandler.FindByClientId | src/domain/message/storage.rs:316-342 | finds the sender's newest message with the client id, or none exactly when there is none |
| MessageHandling.MessageHandler.MergeMentions | src/domain/message/handler.rs:85-96 | the loop builds the merged mention list |
| MessageHandling.MergedMentionsAreAll | src/domain/message/handler.rs:85-96 | merging keeps the explicit mentions in front, loses nobody and adds nobody twice |
| MessageHandling.MentionsAreParticipants | src/domain/mention/parser.rs:56-62 | the valid mentions are exactly the mentioned participants, in the order of the mentions |
| GdprDeletion.DeletionErases | src/domain/gdpr/deletion.rs:169-204 | afterwards nobody mentions the user and everybody else is mentioned as before; anonymising loses no message, blanks exactly the user's live ones with the placeholder that belongs to preserve_structure, and leaves the user's id as sender in exactly the messages already deleted; hard deletion removes exactly the user's messages; every other column stays |
| GdprDeletion.RecalledKeepsItsSender | src/domain/gdpr/deletion.rs:182-196 | a run of send, recall and anonymisation after which the message still names the user |
| GdprDeletion.AnonymizationSucceedsExactlyWhen | src/domain/gdpr/deletion.rs:182-196 | the update succeeds if and only if no live message of the user shares its client id and day with one of an anonymised user |
| GdprDeletion.AnonymizeInARun | src/domain/gdpr/deletion.rs:182-196 | in every run an anonymisation rewrites all the user's live messages, or nothing exactly when one is blocked that way |
| GdprDeletion.SecondAnonymizationFails | src/domain/gdpr/deletion.rs:182-196 | a run in which two users sent one client id on one day, the first is anonymised, and the second cannot be |
| GdprDeletion.DeletionService.AnonymizeMessages | src/domain/gdpr/deletion.rs:169-204 | rewrites exactly the user's live messages and counts them, or fails and changes nothing |
| GdprDeletion.DeletionService.DeleteMessages | src/domain/gdpr/deletion.rs:207-225 | removes exactly the user's messages and counts them |
| GdprDeletion.DeletionService.RemoveFromMentions | src/domain/gdpr/deletion.rs:356-376 | removes the user from every mention list and counts the lists changed |
| GdprDeletion.DeletionService.PerformDeletion | src/domain/gdpr/deletion.rs:79-167 | the transaction's effect and its three counts, or a rollback exactly when the anonymisation cannot be written |
| History.PagingIsExact | src/domain/message/storage.rs:215-287 | with distinct timestamps, following the last id of each page returns the first-call snapshot newest first, each message once, in the least number of calls, even if newer messages are inserted between calls |
| History.PagingIsExactWhen | src/domain/message/storage.rs:223-250 | that happens if and only if no page ends between two messages of the same timestamp |
| History.PagesIsCeiling | src/domain/message/storage.rs:215-287 | the least number of calls is the rounded-up quotient by min(limit, 100), or one |
| History.PageAt | src/domain/message/storage.rs:215-287 | a page is the next min(limit, 100) messages below its cursor and `has_more` says exactly whether an older one remains |
| History.NewestFirstMeans | src/domain/message/storage.rs:236-264 | the list the pages are cut from holds the conversation's messages below the cursor's time, each as often as stored, by decreasing time |
| History.SkippedForGood | src/domain/message/storage.rs:236-250 | a message of the cursor's own timestamp is on no later page |
| History.ZeroLimit | src/domain/message/storage.rs:221-221 | a limit of 0 answers with no message and says there is more whenever there is any |
| History.TieExample | src/domain/message/storage.rs:236-250 | two messages of one timestamp, one per page: one is lost |
| SearchQuery.QueryReadsBack | src/domain/message/storage.rs:394-413 | splitting the query on " & ", dropping ":*" and un-doubling quotes recovers exactly the cleaned non-empty words in order |
| SearchQuery.QueryIsUniquelyDecodable | src/domain/message/storage.rs:394-413 | two terms print the same query exactly when their cleaned words agree |
| SearchQuery.EscapingTwice | src/domain/message/storage.rs:394-413 | escaping is idempotent on a term if and only if it holds no single quote |
| SearchQuery.CleanWordsArePlain | src/domain/message/storage.rs:395-411 | no printed word is empty or holds white space or a tsquery operator |
| SearchQuery.WordsHoldTheTerm | src/domain/message/storage.rs:394-404 | read one after the other, the cleaned words are the term without its white space and operators |
| SearchQuery.PlainCharsCount | src/domain/message/storage.rs:401-404 | every other character is kept as often as it was there |
| SearchQuery.WordsSplitAtWhite | src/domain/message/storage.rs:394-396 | words end at white space: the words of two terms with white space between them are the words of both |
| SearchQuery.OneWord | src/domain/message/storage.rs:397-411 | a term without white space is one word, or none when nothing of it is left |
| SearchQuery.QueryPieces | src/domain/message/storage.rs:405-413 | the query holds one piece for each word, with its quotes doubled and marked as a prefix |
| SearchQuery.ExampleQuery | src/domain/message/storage.rs:394-413 | an example: (a' &b) is searched for as a'':* & b:* |
| EmailSafety.SentAtMostOnce | src/domain/email/service.rs:160-207 | in every interleaving with one processor each email is sent at most once and attempted at most max(1, max_retries) times |
| EmailSafety.BudgetHolds | src/domain/email/queue.rs:207-248 | no bucket counts more than the limit, even for a send that crosses the hour |
| EmailSafety.EverySendIsCounted | src/domain/email/service.rs:171-174 | unless the processor gives up, the counted sends are exactly the sends, in order and for the right users |
| EmailSafety.LimitIsReadExactlyWhen | src/domain/email/queue.rs:224-224 | the i16 cast keeps the configured limit exactly up to 32767, and lets a fresh user send exactly when its low 16 bits are between 1 and 32767 |
| EmailSafety.LimitIsMisread | src/domain/email/queue.rs:224-224 | a configured limit of 32768 lets nothing through, one of 65537 lets one email an hour through |
| EmailSafety.NothingIsSent | src/domain/email/queue.rs:224-224 | a limit the cast makes zero or negative stops all mail |
| EmailSafety.CancelledIsNeverSent | src/domain/email/queue.rs:153-176 | a cancelled email the processor had not fetched is never sent |
| EmailSafety.CancelledMayBeSentExactlyWhen | src/domain/email/service.rs:160-207 | in every run a cancelled email may still be sent if and only if the processor had fetched it and the limit as read lets anything through |
| EmailSafety.CancelledTooLate | src/domain/email/queue.rs:251-257 | a run in which an email cancelled after it was fetched is sent, since marking does not look at the status |
| EmailSafety.StatementsMean | src/domain/email/queue.rs:88-315 | what cancelling, requeueing, joining and cleaning up do to every row, on its columns |
| EmailProcessing.EmailService.ProcessPending | src/domain/email/service.rs:160-207 | returns the number of emails it sent, while enqueues, cancellations, requeues, cleanups and the clock run between its statements; no email is ever sent twice and no bucket exceeds the limit |
| EmailProcessing.EmailService.GetReadyEmails | src/domain/email/queue.rs:179-204 | fetches distinct pending emails that are due, as many as there are up to the limit, by increasing priority number and then due time; one left out found the limit reached and comes no sooner than one taken |
| EmailProcessing.SelectReady | src/domain/email/queue.rs:179-204 | selects the most urgent of the emails that are due, in order |
| EmailProcessing.EmailService.SendQueuedEmail | src/domain/email/service.rs:210-267 | an email is sent only when the limit check found room in the bucket of its hour; otherwise nothing is sent or counted |
| EmailProcessing.EmailService.CheckRateLimit | src/domain/email/queue.rs:207-225 | answers for the user's bucket of the present hour, in 16 bits |
| EmailProcessing.EmailService.Settle | src/domain/email/service.rs:170-203 | afterwards a sent email is marked sent and counted once in the present hour, a failed one is marked failed and not counted, or a database error has ended the call |
| EmailBatching.EmailQueue.Enqueue | src/domain/email/queue.rs:48-150 | a notification's message is added to the queue exactly once: to the newest recent pending email of its user and conversation if that one has room, to a new one otherwise; no batch outgrows its size |
| EmailBatching.EmailQueue.FindExisting | src/domain/email/queue.rs:60-76 | finds a newest pending email of the user and conversation created inside the window, or none exactly when there is none |
| EmailContentsFate.MayBeMailedExactlyWhen | src/domain/email/queue.rs:81-112 | in every run, a queued message that has not been mailed may still be mailed with its email if and only if the limit lets anything through and the processor's copy brings it and may still be sent, or the email is pending, or it may fail and be requeued with attempts to spare |
| EmailContentsFate.TooLateForGood | src/domain/email/queue.rs:88-102 | a message that nothing can bring into a mail any more stays so in every continuation |
| EmailContentsFate.JoinedTooLate | src/domain/email/queue.rs:88-102 | a run in which a message joins an email found pending and meanwhile sent: it is in the queue and no continuation mails it |
| EmailContentsFate.OverlappingJoinsLoseAMessage | src/domain/email/queue.rs:60-102 | a run in which two notifications join one email and the message of the first is taken out of the queue again |
| EmailContentsSafety.OneMailWithTheFetchedList | src/domain/email/service.rs:160-207 | in every run each email is mailed at most once, and the mail brings exactly the list of messages the email had at some fetch of the run |
| EmailContentsSafety.SentIsFinal | src/domain/email/service.rs:160-207 | once an email has been sent, the messages it has brought are final in every continuation, whatever joins it later |
| PresenceRuns.SubscribersAreHeard | src/domain/presence/tracker.rs:263-411 | in every interleaving a listed target lists the subscriber back, and nobody is subscribed to themselves |
| PresenceRuns.UninterruptedClearsKeepTheMirror | src/domain/presence/tracker.rs:263-411 | when a clear is one step the two relations are exact inverses |
| PresenceRuns.WriteKeepsTheMirrorExactlyWhen | src/domain/presence/tracker.rs:367-411 | the write half of a clear keeps the inverse if and only if nothing was subscribed since the read that the read did not list |
| PresenceRuns.LeakSurvives | src/domain/presence/tracker.rs:367-411 | a subscriber left behind in a target's list stays there through every continuation in which it does not itself subscribe to or unsubscribe from that target; no later clear repairs it |
| PresenceRuns.LeakEndsExactlyWhen | src/domain/presence/tracker.rs:263-411 | such a leak ends with a step if and only if that step is the subscriber's own request naming the target |
| PresenceRuns.ClearLeaks | src/domain/presence/tracker.rs:390-404 | a clear's write leaves behind every target followed since its read that no clear under way lists |
| PresenceRuns.SubscriptionLeaks | src/domain/presence/tracker.rs:378-404 | a run in which a subscriber is left behind in a target's list |
| PresenceStore.SubscribeMeans | src/domain/presence/tracker.rs:284-309 | the atomic pipe adds exactly the subscriber's pairs with the targets other than itself, to both relations |
| PresenceStore.UnsubscribeMeans | src/domain/presence/tracker.rs:341-355 | the atomic pipe removes exactly the requested pairs, from both relations |
| PresenceStore.ClearMeans | src/domain/presence/tracker.rs:390-404 | the clearing pipe empties the subscriber's own list but only the lists of the targets it was built from |
| PresenceTracking.PresenceTracker.SubscribeTo | src/domain/presence/tracker.rs:263-318 | the method's effect on both relations, none without Redis |
| PresenceTracking.PresenceTracker.UnsubscribeFrom | src/domain/presence/tracker.rs:321-364 | the method's effect on both relations, none without Redis |
| PresenceTracking.PresenceTracker.ClearSubscriptions | src/domain/presence/tracker.rs:367-411 | afterwards the subscriber follows nobody, whatever ran between its read and its write |
| Frames.FrameRoundTrip | src/domain/compression/codec.rs:67-154 | for any two configurations the second decodes the first's frame back to the data if the frame is raw or the data fits its limit and reports too-large otherwise; a frame is at most one byte longer than the data |
| Frames.CompressedExactlyWhen | src/domain/compression/codec.rs:67-101 | the frame is 1 and what zstd makes of the data exactly when the data is long enough and that is shorter, 0 and the data otherwise, and compression fails exactly when zstd does |
| Frames.AnswersExactlyWhen | src/domain/compression/codec.rs:108-154 | the answer for every frame, by its flags byte and by what zstd makes of the payload |
| Frames.OnlyLowBitsMatter | src/domain/compression/types.rs:22-54 | decoding depends on the low three bits of the flags byte, and exactly compressed frames of another algorithm are unsupported |
| Frames.ContentIsLimited | src/domain/compression/codec.rs:125-154 | the content of a compressed frame never exceeds the limit; a raw frame's content is its payload |
| Frames.FlagsReadBack | src/domain/compression/types.rs:42-54 | the flags written are the flags read |
| CompressionCodec.Compress | src/domain/compression/codec.rs:67-101 | produces the frame of the round trip, byte by byte, compressed exactly when that is shorter, at most one byte longer than the data |
| CompressionCodec.Decompress | src/domain/compression/codec.rs:108-154 | the chunked loop ends and its result does not depend on the sizes of the chunks; a compressed frame never makes it store more than the limit, a raw one makes it store its payload whatever the limit |
| CompressionCodec.ReadAll | src/domain/compression/codec.rs:125-150 | the loop over a stream is the whole stream under the limit: too-large before broken before done |

## Left out

- HTTP handlers, JSON shapes, authentication, metrics, tracing and shutdown: no property beyond one branch.
- pulldown-cmark, zstd, SHA-256, image and URL handling: library code. The event stream is assumed to be the traversal of a tag tree; zstd is assumed to decode what it encodes, and everything else about it is free.
- Redis expiry: relations and queues are described for runs without it.
- Redis errors outside the routing call: within it a failing push, read of the session set or publish and a dying server are modelled (`FailPush`, `Abort`), a payload nobody is subscribed to is lost (`Lose`), and a drain's deletion may fail (`ForgetRead`); `Sessions`, `OfflineQueues` and `Presence` describe commands that succeed.
- Arrival: a user connected locally is served only locally, a session set is not a count of connections, and a publish may reach nobody, so beyond having been sent or queued nothing is claimed about receiving.
- A send to a user split over the user's connections: one step of the delivery protocol. `ConnectionManager.SendToList` has the loop.
- The order in which the history query answers with messages of one timestamp: the model takes insertion order, the database promises none. Only the order within such a group depends on it.
- The other routing calls (recall, edit, typing, thread, pin, mention notices): the same loop with fewer filters.
- The per-user index under interleaving: an empty list is removed in a separate step, so the index agreement is for calls that do not overlap; the interleaved model has the table and the counter only.
- Shared objects behind the delivery protocol: `Routing` keeps the state every server shares in one value; each server's connection table as an object is `ConnectionManagement`.
- `call` of the breaker as one unit: its two ends are `IsAvailable` and `FinishCall`, and a run may interleave other operations between them.
- Time claims after `force_open`, which sets no failure time, and after `reset`: the trip-rate bound is for runs without them.
- Routing and last-message updates at the end of a send: the handler is modelled up to its insert; `Routing` takes over from there.
- MessageHandling.MessageHandler.HandleSend: mentions found in the text, participants and the membership answer are parameters, because parsing them and the conversation service are other components.
- Forwarded messages, pins and attachments: a forward inserts a row like a send without a reply, which the runs include; the rest are other tables.
- Tenants: every statement is for one tenant. The day of a row is taken in UTC.
- Paging of thread replies, and the order of search results: other queries of the same shape or none promised.
- Rows locked by another transaction, which the fetch of ready emails skips: with one processor there are none.
- EmailBatching.EmailQueue.Enqueue: one call runs at a time, and of an email's parallel lists only the message ids are kept. `EmailContents` has the two statements of overlapping calls apart, but there a SELECT may find any pending email with room, because users, conversations and the batch window play no part in what happens to a message.
- Preferences, quiet hours, digests and templates of the email service: they decide whether a send is attempted or fails, which the runs leave open.
- Deletion of reactions, receipts, attachments, conversations and lookups: single statements on tables nothing here depends on.
