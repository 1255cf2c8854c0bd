# A verified model of the 7TV EventAPI

The EventAPI is a fan-out server. Client sessions subscribe to (event type, condition) pairs; a
subject index shared by all sessions routes each bus message to the right sessions; each session
filters, deduplicates and frames what it receives. This project models that path in Dafny and
proves what it keeps, over single calls and over whole runs with any number of sessions.

| file | what it models |
|---|---|
| `Slices.dfy`, `Options.dfy` | the slice idioms (swap-with-last removal, order-keeping removal, linear search); an optional value |
| `RoutingIndex.dfy`, `RoutingLaws.dfy` | the two-way NATS index, its bounded channels, the fan-out |
| `EventMaps.dfy`, `EventMapLaws.dfy`, `EventMapEffects.dfy` | the per-session event map of three parallel slices above the index: what its calls keep, and what each does in full |
| `Dispatch.dfy` | filter, dedupe, effects and write of one dispatch |
| `Server.dfy` | runs of any number of sessions over all of the above; queues and dedupe |
| `ServerRoutes.dfy`, `Delivery.dfy` | which entries are routed after a run; delivery from publication to frame |
| `RedisTable.dfy`, `RedisLaws.dfy`, `RedisRuns.dfy` | the Redis subscriber table, its reverse sweep, and runs with sweeps visit by visit |
| `ServerSentEvents.dfy` | the EventStream frame printer against the parser of the HTML Standard |
| `InlineSubscriptions.dfy` | subscriptions written into the connection URL |
| `Handshake.dfy`, `Tracking.dfy` | the ready/cancel handshake between goroutines, the connection counters |

Code that works by changing things step by step is a method, or a class with methods, whose
contract ties the new state to a specification function of the old one; the laws are lemmas about
those functions. Goroutines are state machines over their atomic steps.

## Assumptions

- `EventCondition.Match` is reflexive and dispatch keys are injective in (type, condition); nothing
  else is assumed of them, nor of `ObjectName`. They are fields of `EventMaps.Library`.
- `utils.SliceRemove` drops exactly one position, keeps the order and yields a fresh slice. Its source
  is not part of this model. Everything said of `UnsubscribeWithID` as written rests on the fresh
  slice: `EventMapLaws.WithoutIDKeepsIff`, and with it `Server.RunKeepsState`,
  `ServerRoutes.RoutesExplained`, `ServerRoutes.LiveEntriesAreRouted` and `Delivery.PublishReaches`.
  Were the elements shifted in place, a hit before the last entry would change the stored slices
  too and leave the last entry in them twice.
- Session ids are distinct, and there is one `Subscription` object per session, so a subscription is
  identified with its session id.
- Marshalled JSON and opcode names contain no line terminator, and opcode names are not empty. The
  marshalled data may even be empty.
- Calls under a mutex are one step, except that the Redis sweep is one step per subscriber, because
  close signals and receivers do not take its mutex. A dispatch is one step of its session. A write
  of a frame is one step, and in the handshake a failed write sends nothing. An EventStream frame
  counts as sent once the buffered writer is flushed; `http.Flusher.Flush` reports no error.
- A buffered channel's non-blocking send succeeds when there is room; a hand-over to a goroutine
  already waiting counts as a send followed by a receive. What a receiver does with a message is not
  recorded, so on a channel without a buffer such a hand-over leaves the modelled state as it was.

## Where the code departs from its intent

The model follows the code. Each departure is stated exactly.

- `UnsubscribeWithID` shortens only the loop's copy of the channel. A session whose subscription
  expires keeps the entry but loses the route (`ServerRoutes.ExpiredEntryStays`); the call keeps live
  entries routed exactly when it hits nothing (`EventMapLaws.WithoutIDKeepsIff`). Over any run, a live
  entry is unrouted exactly when such a call has found it since it was last added
  (`ServerRoutes.LiveEntriesAreRouted`). With the channel stored back, as `Unsubscribe` does, the
  call is sound (`EventMapLaws.WithoutIDStoredKeeps`).
- `Subscription.Unsubscribe` walks a stale list across its arguments. It keeps the index bijective
  exactly when at most one of its arguments is subscribed (`RoutingLaws.UnsubscribeKeepsBijectionIff`,
  `RoutingLaws.LeavingTwoAtOnce`). The event map only ever passes one.
- `Unsubscribe` of a whole type forgets the entries but not their routes
  (`ServerRoutes.ForgottenTypeStays`). The exact condition is in `EventMapLaws.UnsubscribeKeeps` for
  a call, `EventMapLaws.RemoveAllKeeps` and `Dispatch.DispatchKeeps` for a dispatch,
  `ServerRoutes.StepKeepsExact` for any step and `ServerRoutes.RoutesAreLiveKeysIff` for a run.
- `RemoveChannel` is commented as removing all subscriptions with the channel. It drops one per key
  (`RedisLaws.RemoveChannelRemovesAllIff`, `RedisLaws.RegisteredTwiceStays`).
- The sweep's comment speaks of checking whether the channel is closed. The code takes a message off
  a channel that holds one instead of closing it. An open, signalled channel is closed by an
  undisturbed sweep exactly when it is registered under the key more often than it holds messages
  (`RedisLaws.ChannelSwept`, `RedisLaws.DrainedThenClosed`).
- Nothing makes callers register a channel with one close signal only. Runs are free of sends on
  closed channels exactly when they do (`RedisRuns.SafeIffOneSignal`, `RedisRuns.MixedSignalsCrash`).
- The inline subscription syntax of the README allows every subscription type, but the regular
  expression has no underscore after the dot, so `user.add_connection` becomes `user.add` without
  conditions (`InlineSubscriptions.AddConnectionIsCut`, `InlineSubscriptions.InlineReadsBackIff`).

## Model

| member | source | states |
|---|---|---|
| RoutingIndex.Hub.IsSubscribed | internal/nats/subscription.go:112-119 | answers whether the session is in the subject's list |
| RoutingIndex.Hub.Subscribe | internal/nats/subscription.go:23-33 | both maps change as the specification of repeated single subscriptions says |
| RoutingIndex.Hub.RemoveFrom | internal/nats/subscription.go:51-67 | one subject's list loses the session by swap removal, and the key once empty |
| RoutingIndex.Hub.Unsubscribe | internal/nats/subscription.go:35-72 | both maps change as the scan of the stale list says, for any arguments |
| RoutingIndex.Hub.Close | internal/nats/subscription.go:74-100 | the session is dropped from every listed subject and from the session map |
| RoutingIndex.Hub.HandleMessage | internal/nats/message.go:10-22 | the queues change by one non-blocking offer per subscriber of the trimmed subject |
| RoutingIndex.Hub.Receive | internal/app/connection/eventstream/eventstream_read.go:46-49 | takes the front message of the session's own queue and no other |
| RoutingIndex.DropSubscriberEffect | internal/nats/subscription.go:56-67 | removal keeps every other subscriber with multiplicity and deletes the list exactly when nobody else is in it |
| RoutingIndex.SubscribeAllEffect | internal/nats/subscription.go:23-33 | adds exactly the named links and keeps the maps inverse, duplicates and present links included |
| RoutingIndex.SubscribeAppends | internal/nats/subscription.go:23-33 | lists grow at the end only, by the session where it was not yet |
| RoutingIndex.UnsubscribeOneEffect | internal/nats/subscription.go:35-72 | with one subject, removes exactly that link, keeps the maps inverse and every other session's list |
| RoutingLaws.CloseForgetsOnlyTheSession | internal/nats/subscription.go:74-110 | no list mentions the session, exactly the emptied lists are deleted, all other lists and multiplicities are kept |
| RoutingLaws.UnsubscribeKeepsBijectionIff | internal/nats/subscription.go:35-72 | the maps stay inverse if and only if at most one argument is subscribed, and then exactly the named links go |
| RoutingLaws.LeavingTwoAtOnce | internal/nats/subscription.go:38-49 | concrete call with two subscribed subjects that breaks the index |
| RoutingLaws.IndexRefinesPairs | internal/nats/subscription.go:23-119 | over every run whose `Unsubscribe` calls name at most one subscribed subject each, the maps are inverse, free of empty lists and duplicates, and hold the pairs a plain set would |
| RoutingLaws.AlwaysBijectiveIff | internal/nats/subscription.go:23-119 | these are exactly the runs that keep the maps inverse throughout |
| RoutingLaws.DeliverPointwise | internal/nats/message.go:15-21 | a session's queue after a fan-out depends on its own queue and membership only |
| RoutingLaws.FanoutIsNaiveScan | internal/nats/message.go:14-15 | the subject's list is the set a scan of all session lists picks, each session once |
| RoutingLaws.PublishedReaches | internal/nats/message.go:10-22 | a message published under the base subject is offered once to exactly the sessions a naive scan for its own name picks; under any other subject, to those of the whole subject |
| EventMaps.EventMap.Subscribe | internal/app/connection/connection.go:102-151 | map and index change as specified; succeeds if added or answered by an automatic entry |
| EventMaps.EventMap.Unsubscribe | internal/app/connection/connection.go:153-203 | map and index change as specified; result id and status |
| EventMaps.EventMap.RemoveEntry | internal/app/connection/connection.go:178-200 | the three slices lose one position, the index one key, the type goes with its last entry |
| EventMaps.EventMap.UnsubscribeWithID | internal/app/connection/connection.go:205-233 | as written: at most one hit, in some type, loses its route; the map is unchanged |
| EventMaps.EventMap.Get | internal/app/connection/connection.go:239-265 | the exact type's entries followed by the wildcard's, or nothing |
| EventMaps.EventMap.Destroy | internal/app/connection/connection.go:271-283 | the first call empties the map and closes the routes, later ones do nothing |
| EventMaps.Match | internal/app/connection/connection.go:298-314 | the exact set of matching ids without repeats; panics exactly when a condition just past the last id matches |
| EventMaps.Values | internal/app/connection/connection.go:313 | each element of the set once |
| EventMaps.HitPosition | internal/app/connection/connection.go:212-214 | the position holds a listed id, or no listed id occurs |
| EventMaps.FirstMatch | internal/app/connection/connection.go:131-139 | the first matching condition |
| EventMapLaws.SubscribeKeeps | internal/app/connection/connection.go:114-150 | one aligned entry and its route are added or nothing is; coverage, exactness and channel invariants stay; some entry answers afterwards |
| EventMapEffects.RefusesIff | internal/app/connection/connection.go:121-139 | nothing is added exactly when some entry of the type already matches the condition |
| EventMapLaws.RemoveAtKeeps | internal/app/connection/connection.go:180-182 | the rest stays aligned entry by entry, in order, with no earlier condition matching a later one |
| EventMapLaws.DropEntryKeeps | internal/app/connection/connection.go:176-200 | exactly one live entry and its route go, other sessions are untouched |
| EventMapLaws.UnsubscribeKeeps | internal/app/connection/connection.go:153-203 | live entries stay routed; routes stay exact if and only if it is not the type-wide form on a held type |
| EventMapEffects.UnsubscribeRemovesFirst | internal/app/connection/connection.go:171-200 | with a condition, exactly the first entry that matches it goes, with its id, properties and route; the others keep their order |
| EventMapEffects.UnsubscribeMisses | internal/app/connection/connection.go:166-203 | with a condition nothing matches, nothing changes |
| EventMapEffects.UnsubscribeOwn | internal/app/connection/connection.go:171-200 | unsubscribing a held condition removes that entry and its route and no other |
| EventMapEffects.UnsubscribeWholeType | internal/app/connection/connection.go:157-165 | without a condition all entries of the type go, and no route |
| EventMapLaws.WithoutIDKeepsIff | internal/app/connection/connection.go:205-233 | as written, live entries stay routed if and only if no id is found |
| EventMapEffects.AsWrittenTakesRoute | internal/app/connection/connection.go:205-233 | as written, all entries stay and exactly the route of the found entry goes, if some id is found |
| EventMapEffects.HitIsFirst | internal/app/connection/connection.go:212-214 | the entry found is that of the first listed id that occurs |
| EventMapLaws.WithoutIDStoredKeeps | internal/app/connection/connection.go:205-233 | with the channel stored back, exactly the hit entry and its route go |
| EventMapEffects.StoredRemovesHit | internal/app/connection/connection.go:205-233 | with the channel stored back, exactly the found entry goes, with its id, properties and route |
| EventMapLaws.DestroyKeeps | internal/app/connection/connection.go:271-283 | afterwards no entry, no route and no subscriber list has the session |
| EventMapLaws.GetThenMatch | internal/app/connection/connection.go:239-314 | the ids selected are those of exact-type and wildcard entries matching some payload condition, and indexing is in range |
| EventMapEffects.LookupSelects | internal/app/connection/connection.go:239-314 | the entries found are those of the type followed by those of its object wildcard, and the ids selected those of the entries that match |
| EventMapLaws.LiveEntryMatches | internal/app/connection/connection.go:305-310 | a live entry whose condition is in the payload is selected |
| EventMapLaws.AddAllAnswers | internal/app/connection/handle.go:70-79 | the loop only adds, keeps all invariants, and every grant ends up answered |
| EventMapEffects.AddAllAppends | internal/app/connection/handle.go:70-79 | what was held stays in front, and every new entry is the automatic subscription a grant asks for, with its condition, time to live and id |
| EventMapLaws.AddAllIdempotent | internal/app/connection/handle.go:70-79 | running the loop twice leaves map and index as running it once |
| EventMapLaws.RemoveAllRoutes | internal/app/connection/handle.go:103-110 | the removal loop takes the routes of the entries it removes, except those a type-wide grant forgets |
| EventMapLaws.RemoveAllKeeps | internal/app/connection/handle.go:103-110 | the removal loop keeps coverage; it keeps exactness if and only if no grant without conditions meets a type held when its turn comes |
| EventMapEffects.RemoveAllTakes | internal/app/connection/handle.go:103-110 | an entry is held after the loop exactly when it was and no grant took it at its turn |
| EventMapEffects.RemoveAllRemoves | internal/app/connection/handle.go:103-110 | afterwards no condition named by a grant is held, and nothing of a type named without one |
| Dispatch.Cache.AddDispatch | internal/app/connection/cache.go:23-29 | adds the hash and says whether it was new |
| Dispatch.Cache.HasDispatch | internal/app/connection/cache.go:35-37 | membership of the hash |
| Dispatch.Cache.ExpireDispatch | internal/app/connection/cache.go:31-33 | removes exactly the hash |
| Dispatch.Session.Filter | internal/app/connection/handle.go:42-57 | admits by type and condition, or by whisper target, with the ids that matched |
| Dispatch.Session.OnDispatch | internal/app/connection/handle.go:41-140 | filter, dedupe, effects and write change connection and index as specified |
| Dispatch.Session.ApplyEffect | internal/app/connection/handle.go:69-115 | the three effect loops in their order |
| Dispatch.DispatchKeeps | internal/app/connection/handle.go:44-115 | a dispatch keeps coverage and other sessions' routes; it keeps exactness if and only if it is turned away or removes no whole type held by then |
| Dispatch.WantedSelects | internal/app/connection/handle.go:44-54 | the matches are the ids of the entries under the type or its object wildcard that match some of the dispatch's conditions; a whisper has none |
| Dispatch.AdmitsIff | internal/app/connection/handle.go:44-57 | a dispatch passes exactly when such an entry exists; a whisper, exactly when it names this session |
| Dispatch.TurnedAway | internal/app/connection/handle.go:44-66 | a dispatch that does not pass, or whose hash was seen, changes nothing |
| Dispatch.Applied | internal/app/connection/handle.go:59-140 | any other, with or without hash and effect: additions, then removals; the seen hashes exactly; one cleared frame, or the dispatch saved whole |
| Dispatch.EffectHolds | internal/app/connection/handle.go:69-110 | after an effect nothing it removes is held, and all it adds is answered for unless taken again |
| Server.StepKeeps | internal/app/connection/connection.go:102-283 | every step of every session keeps index and maps sound and leaves other sessions' connections and routes alone |
| ServerRoutes.StepRoutes | internal/app/connection/connection.go:102-283 | what any step does to the route of any entry of any session, by cases on entries alone |
| ServerRoutes.TurnLives | internal/app/connection/connection.go:102-283 | which entries a session holds after each kind of step of its own |
| ServerRoutes.StepKeepsCovered | internal/app/connection/connection.go:102-283 | a step keeps a session's live entries routed if and only if it is no `UnsubscribeWithID` of that session that finds an id |
| ServerRoutes.StepKeepsExact | internal/app/connection/connection.go:102-283 | a step keeps a session's routes equal to its live keys if and only if, besides, it removes no whole type that the session holds |
| Server.RunKeepsState | internal/app/connection/connection.go:131-233 | after every run the index is bijective and every channel nonempty, aligned and without shadowed conditions |
| ServerRoutes.RoutesExplained | internal/app/connection/connection.go:102-283 | after every run, an entry's key is routed to the session if and only if the entry is live and not stranded by a lossy removal, or left over from a type-wide one |
| ServerRoutes.LiveEntriesAreRouted | internal/app/connection/connection.go:145-148 | after every run each live entry's key lists the session exactly once, in both maps, if and only if no `UnsubscribeWithID` found it since it was last added |
| ServerRoutes.RoutesAreLiveKeysIff | internal/app/connection/connection.go:145-200 | after every run a session's subjects, each listed once, are its live keys if and only if none of its entries is stranded or left over |
| ServerRoutes.RoutesAreLiveKeys | internal/app/connection/connection.go:145-200 | so it is in a session without lossy and type-wide removals of its own, whatever other sessions do |
| ServerRoutes.ExpiredEntryStays | internal/app/connection/connection.go:211-219 | concrete run after which a live entry is not routed and cannot be asked for again |
| ServerRoutes.ForgottenTypeStays | internal/app/connection/connection.go:157-165 | concrete run after which a session without entries is still routed |
| Server.StepQueue | internal/nats/message.go:14-21 | how every kind of step changes each session's queue, publications by the naive scan |
| Server.QueuesConserve | internal/nats/message.go:10-22 | at most ten wait; received then waiting is an in-order part of offered; offered is received, waiting or dropped |
| Server.SeenPersists | internal/app/connection/cache.go:23-33 | a seen hash stays seen until an applied effect expires it |
| Server.WriteMarksHash | internal/app/connection/handle.go:59-66 | a frame for a hash means it was unseen, and is seen afterwards unless the dispatch expires it |
| Server.NoDuplicateWrites | internal/app/connection/handle.go:59-139 | between two frames with one hash some applied effect expired it |
| Server.ExpiredIsUnseen | internal/app/connection/handle.go:112-115 | a hash an applied effect names is unseen until the session takes another dispatch that carries it |
| Server.SeenWasTaken | internal/app/connection/cache.go:23-29 | a seen hash was carried by a dispatch the session took |
| Server.ConnStep | internal/app/connection/handle.go:117-140 | frames once written stay and a session keeps the id it goes by |
| Server.SilentAfterShut | internal/app/connection/websocket/websocket.go:146-149 | once shut, or given a buffer, a session writes no further frame |
| Delivery.Fifo | internal/nats/subscription.go:16-21 | a queued message moves up by one per message taken, whatever else happens |
| Delivery.DeliverWrites | internal/app/connection/handle.go:44-139 | taking a message a live entry answers for writes one frame naming the entry |
| Delivery.PublishReaches | internal/nats/message.go:10-22 | a message published under a live entry's key joins the session's queue, given room, if and only if the entry is not stranded |
| Delivery.EndToEnd | internal/nats/message.go:10-22 | a message published under the key of a live entry that is not stranded, with room in the queue, ends in exactly one cleared frame whose matches contain the entry's id |
| Delivery.WhisperEndToEnd | internal/app/connection/handle.go:55-139 | a whisper to the session published under such a key ends in exactly one frame without matches, whatever its type and conditions |
| Delivery.FramesAreReceived | internal/app/connection/handle.go:41-140 | over every run a session's frames are an in-order part of the dispatches it received |
| Delivery.FramesWereOffered | internal/nats/message.go:10-22 | and of those published on subjects it was subscribed to at the time, by the naive scan |
| RedisTable.RedisInst.EventsSubscribe | internal/instance/redis.go:78-87 | one registration per key, upstream for new keys only |
| RedisTable.RedisInst.EventsUnsubscribe | internal/instance/redis.go:90-106 | removes the one pointer from each named key, and a key and its upstream subscription with its last pointer |
| RedisTable.RedisInst.Unsubscribe | internal/instance/redis.go:109-128 | the first registration of the channel goes from each named key |
| RedisTable.RedisInst.RemoveChannel | internal/instance/redis.go:131-150 | every key loses its first registration of the channel, in whatever order keys are met |
| RedisTable.RedisInst.VisitAt | internal/instance/redis.go:42-62 | one turn of the walk: a signalled subscriber leaves the list and its channel is drained or closed, any other is offered the payload |
| RedisLaws.RegisterAppends | internal/instance/redis.go:78-87 | one new subscriber per mention of the key, behind those that were there, with the channel, the signal and a new pointer |
| RedisLaws.RemovePointerTakes | internal/instance/redis.go:90-106 | the pointer goes from each named key and nothing else does |
| RedisLaws.UnregisterTakes | internal/instance/redis.go:109-128 | one registration of the channel goes per mention of the key, while there are any, and none of another channel |
| RedisLaws.RemoveChannelTakes | internal/instance/redis.go:131-150 | one registration of the channel goes from every key that has one, and none of another channel |
| RedisTable.RedisInst.Sweep | internal/instance/redis.go:41-63 | undisturbed, every subscriber present at the start is visited once, last to first, in bounds, with the list shrinking underneath |
| RedisLaws.SweepRemovesExactlyFired | internal/instance/redis.go:41-63 | exactly the signalled subscribers go, the others stay as a multiset, the key goes exactly when none stay |
| RedisLaws.VisitsOfOwn | internal/instance/redis.go:43-62 | what a sweep does to a channel depends on that channel's content and registrations alone, whatever their signals |
| RedisLaws.ChannelSwept | internal/instance/redis.go:43-62 | for a channel registered any number of times: one copy of the payload per registration while there is room; if signalled, one message lost per registration and closed exactly when registrations outnumber messages |
| RedisLaws.DrainedThenClosed | internal/instance/redis.go:45-53 | concrete channel, registered twice, that is drained and then closed in one sweep |
| RedisLaws.RemoveChannelRemovesAllIff | internal/instance/redis.go:130-150 | all registrations go if and only if no key holds the channel twice |
| RedisLaws.RegisteredTwiceStays | internal/instance/redis.go:136-147 | concrete table on which a registration stays |
| RedisRuns.RunKeepsUpstream | internal/instance/redis.go:41-150 | in every state of every run, also amid a sweep, upstream equals the stored keys, lists are nonempty, the sweep is in bounds, no channel was closed twice |
| RedisRuns.UndisturbedSweep | internal/instance/redis.go:41-63 | visits with nothing between them make the whole sweep |
| RedisRuns.DisturbedSweep | internal/instance/redis.go:41-63 | with signals and receivers at any moment, a sweep keeps every subscriber whose signal has not fired and none whose had fired before |
| RedisRuns.OthersMove | internal/instance/redis.go:43-57 | signals and receivers move at any moment, amid a sweep too, and touch nothing else |
| RedisRuns.RunIsSafe | internal/instance/redis.go:43-87 | with one close signal per channel no run sends on a closed channel, however visits, signals and receivers interleave |
| RedisRuns.SafeIffOneSignal | internal/instance/redis.go:43-87 | all runs of allowed registrations are free of such sends if and only if no channel is allowed two signals |
| RedisRuns.MixedSignalsCrash | internal/instance/redis.go:43-62 | for any channel and two different signals, the concrete run that crashes |
| ServerSentEvents.EventStream.Write | internal/app/connection/eventstream/eventstream.go:180-210 | appends the frame and counts it, or appends a piece, all or none of it without counting it and reports failure |
| ServerSentEvents.FrameReadsBack | internal/app/connection/eventstream/eventstream.go:189-193 | a frame in front of any text is parsed as its one event with its id |
| ServerSentEvents.CutFrame | internal/app/connection/eventstream/eventstream.go:198-204 | no piece of a frame contains an empty line |
| ServerSentEvents.StreamReadsBack | internal/app/connection/eventstream/eventstream.go:180-210 | over any writes and failures, marshalling included, the standard's parser returns exactly the messages whose frames went out whole, with ids 0 to n - 1; at most one of them was reported as failed |
| ServerSentEvents.DecimalReadsBack | internal/app/connection/eventstream/eventstream.go:192 | the printed id denotes the frame's number |
| InlineSubscriptions.ReadConditions | internal/app/v3/v3.go:63-73 | the key=value loop computes the specified map |
| InlineSubscriptions.ReadItem | internal/app/v3/v3.go:55-73 | one part gives its type and conditions or is skipped |
| InlineSubscriptions.RegexFinds | internal/app/v3/v3.go:25 | for any text: no match unless it starts with a type, else the longest type at the start and the condition group behind it |
| InlineSubscriptions.GroupFinds | internal/app/v3/v3.go:25 | for any text: the group runs from the opening bracket to the last closing one of the line, if there is something between |
| InlineSubscriptions.OnePair | internal/app/v3/v3.go:66-72 | for any text: a part with exactly one equals sign sets its key, any other is skipped |
| InlineSubscriptions.SubscribeEach | internal/app/v3/v3.go:54-81 | hands over a prefix of what the parts name, up to the first refusal |
| InlineSubscriptions.SubscribeInline | internal/app/v3/v3.go:45-82 | the same for the whole URL parameter |
| InlineSubscriptions.MatchStops | internal/app/v3/v3.go:25 | the regular expression ends the type at the first character its class does not allow |
| InlineSubscriptions.ItemReadsBack | internal/app/v3/v3.go:55-73 | a documented item without underscore in its action reads back as itself |
| InlineSubscriptions.UnderscoreCuts | internal/app/v3/v3.go:25 | with an underscore the type is cut there and the conditions are lost, or the item is skipped |
| InlineSubscriptions.AddConnectionIsCut | internal/app/v3/v3.go:25 | concrete documented type that is misread |
| InlineSubscriptions.InlineReadsBackIff | internal/app/v3/v3.go:45-73 | a list printed in the documented syntax reads back as the same list if and only if no action has an underscore |
| InlineSubscriptions.PairsOfMap | internal/app/v3/v3.go:64-73 | any enumeration of a condition map reads back as the map |
| Handshake.StepKeepsSafe | internal/app/connection/eventstream/eventstream.go:228-238 | every step of every goroutine keeps the handshake invariant |
| Handshake.FirstFrameIsHello | internal/app/connection/websocket/websocket_read.go:37-131 | in every interleaving ready implies Hello written or context cancelled, and the first frame is Hello |
| Handshake.ReadyFirstBreaks | internal/app/connection/eventstream/eventstream.go:234-238 | with the two actions of `Destroy` swapped some run sends End of Stream first |
| Handshake.DestroyEndsTracking | internal/app/connect.go:20-66 | after `Destroy` both waits of the tracker are enabled for good, and in any interleaving its remaining steps drop by one with each of its moves, seven at most |
| Handshake.SendCloseCancels | internal/app/connection/websocket/websocket.go:111-144 | whoever leaves `SendClose`, on either transport, leaves the context cancelled; the main loop goes on to `Destroy`, the reader to its loop, the watcher ends |
| Handshake.LoopCloses | internal/app/connection/eventstream/eventstream.go:92-115 | the main loop or the reader, told to close an open connection, sends End of Stream and cancels the context |
| Handshake.FailedWrite | internal/app/connection/websocket/websocket_read.go:127-160 | a main-loop write whose error is acted on ends the connection, one whose error is only logged does not |
| Handshake.FinishedIsCancelled | internal/app/connection/eventstream/eventstream.go:92-115 | in every interleaving a finished watcher, main loop or WebSocket reader means a cancelled context, so does a tracker past its wait; the main loop past its greeting means ready; the subscriber goroutine of an EventStream never destroys it |
| Handshake.ShutdownCancels | internal/app/connect.go:56-64 | in every interleaving a shutdown seen by the watcher cancels the context within five more of its moves and lets the tracker go on |
| Handshake.NobodyIsStuck | internal/app/connection/websocket/websocket_read.go:37-131 | a step that is no wait takes its actor further |
| Handshake.LastFrames | internal/app/connection/websocket/websocket.go:146-149 | frames are never taken back, and past the cancelled context of a WebSocket only those already about to write do |
| Handshake.GracefulRun | internal/app/connection/eventstream/eventstream_read.go:24-40 | on either transport a run with greeting, reply and shutdown: three frames in order, everybody ended |
| Tracking.CountersCount | internal/app/connect.go:24-69 | in every interleaving each counter is the number of instances between its increment and decrement |
| Tracking.CountersReturn | internal/app/connect.go:24-69 | no counter is negative, and all are zero once every instance has ended |
| Tracking.ConnectionsAreApart | internal/app/connect.go:20-69 | each of any number of connections goes through its own handshake as if it were alone |

## Left out

- The resume buffer, `OnResume` and session mutation: their bodies are commented out or constant. A connection with a buffer only records the dispatch.
- Subscription limits and condition size checks of the Subscribe command: the count is never updated, so no limit holds, and the size checks are simple bounds on one argument. Inline subscriptions take the command's answers as a parameter.
- The connection limit of the HTTP server, `OnBridge`, HTTP, NATS and Redis connections, JSON decoding beyond success or failure, WebSocket close frames, TLS, proxies, metrics and logging.
- Real time: a subscription's time to live ends in an `UnsubscribeWithID` step at any moment; heartbeats are ordinary frames. Random ids are inputs.
- The order in which Go ranges over a map is a choice of the step; the order of collected matches too.
- Memory races: the cache and the EventStream writer are unlocked in the code, and `Get` appends to a slice that may share spare capacity with the stored channel. Steps are atomic here and `Get` returns a fresh value.
- The context and cancel function of an event channel.
- Dispatch.Session.OnDispatch: interleaving of other calls of the same session between its filter, effects and write is not modelled, because a dispatch is one step of `Server`.
- Nothing is claimed about frames after End of Stream or entries added after `Destroy`: other goroutines may still write, and the event map has no destroyed flag beyond its once-guard.
- RedisTable.RedisInst.Sweep: assumes that no signal fires and no message is taken during the sweep; `RedisRuns` models sweeps that are disturbed.
- Server.QueuesConserve: says nothing of garbled messages beyond taking them off the queue.
- Counters and sequence numbers are unbounded integers; the 32-bit and 64-bit wrap-around is out of reach of the number of connections and frames.
