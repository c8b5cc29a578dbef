# TwitchClientHelper, modelled in Dafny

This project models the event-generation core of twitch4j's `TwitchClientHelper`. The helper
watches two sets of channel ids. For one set it polls stream status and publishes go-live,
go-offline, title-changed and game-changed events. For the other it polls the newest followers
and publishes follow-count and new-follower events. Both kinds share one per-channel cache
(`ChannelCache`). Each kind runs as a self-rescheduling task whose handle and exponential
backoff are kept in atomic references.

The model is sequential and imperative, as the source is:

- `domain.dfy` (module `Domain`): the cached record, the Helix records the tasks consume, the
  published events, and `String.equalsIgnoreCase`.
- `stream_status.dfy` (module `StreamStatus`): the per-channel stream-status step.
  - `ChannelStep` is a reference function.
  - `UpdateChannel` is the task body with its four dispatch flags, proved equal to it.
  - Lemmas cover each event's firing condition and the cache left behind.
  - The page's `streams` map (`StreamsById` / `IndexStreams`) and the effect of a whole page
    (`CacheAfterPage`, `EventsInOrder`) are modelled here too.
- `followers.dfy` (module `Followers`): the follower tick.
  - `FollowerStep` is a reference function.
  - `FollowerUpdate` is the task body, and `ScanFollows` is its loop over the follow list.
  - Lemmas cover the bootstrap path, the steady path and the watermark.
- `watch.dfy` (module `Watch`): enabling and disabling an id over a watch set and the shared
  cache, and folds over a user lookup result.
- `listener.dfy` (module `Listener`): a listener's pending task and backoff, as a class.
  - `ListenerRunnable`'s walk over its snapshot is the `Action` datatype, with lemmas about
    the order in which it visits the items.
  - `updateListener` is the `UpdatedBy` predicate.
- `page_walk.dfy` (module `PageWalk`): the stream-status task's walk over one page's
  `streams` map, `WalkPage`, with the two predicates that track it and a lemma per step.
- `collections.dfy` (module `Collections`): snapshots of a set as a list, and
  `CollectionUtils.chunked`.
- `helper.dfy` (module `ClientHelper`): the class `TwitchClientHelper`.
  - Its fields are the two watch sets, the cache, the log of published events and the two
    listeners.
  - Its methods are enable/disable (by id, by one lookup result, by many),
    `startOrStopEventGenerationThread`, the two task bodies, running a listener's pending
    task, `setThreadDelay`, `setThreadRate` and `close`.

`Valid()` of the helper is the sequential invariant: a listener has a pending task exactly when
its watch set is non-empty, and every cached record whose live state is unknown knows no title
or game id either (`CacheBlankWhileUnknown`). Every public operation keeps it.

The executor is represented by what it would run next. Each listener records its pending action:
- the start command;
- a fresh runnable over a snapshot;
- or the runnable's next index.

It also records the delay that action was scheduled with. `RunPendingStreamStatus` and
`RunPendingFollower` perform one such action, and they take the outcome of the Helix request as
an argument.

In these places the code does something a reader might not expect, and the model follows the
code:
- One might expect an empty follower page to keep the watermark, and the watermark never to
  move back. The code does neither.
  - A follower page with no follow records sets the watermark `lastFollowCheck` to null,
    because `lastFollowDate` starts as null. The next tick bootstraps again from the current
    time.
  - Consequence: a follow made between the empty page and the re-bootstrap is never reported as
    a new follower (`Followers.FollowMadeBeforeRebootstrapIsNotReported`).
  - The watermark is the newest time on the page. It can move back when that follower
    disappears (`Followers.WatermarkCanMoveBack`).
- The first observation of a channel whose live state is unknown sets the state and publishes
  nothing, including when the channel is live (`StreamStatus.FirstObservationIsSilent`).
- The title and game guards `wasAlreadyLive` are true when the previous state was unknown *or*
  live, exactly as written.
- Disabling either kind for an id drops the shared cache entry, also while the other kind still
  watches that id.
  - Consequence: re-enabling starts from a record that knows only the name
    (`Watch.ReenableForgetsState`).

## Model

| member | source | states |
|---|---|---|
| Domain.NamedCache | twitch4j/src/main/java/com/github/twitch4j/TwitchClientHelper.java:329-330 | the record created on enable knows only the user name; live state, title, game id, follower total and watermark are all null |
| Domain.EqualsIgnoreCaseIsReflexiveAndSymmetric | twitch4j/src/main/java/com/github/twitch4j/TwitchClientHelper.java:166 | the case-insensitive title comparison holds for equal strings and is symmetric |
| Domain.LiveSpellings | twitch4j/src/main/java/com/github/twitch4j/TwitchClientHelper.java:156 | a stream type matches "live" ignoring case iff it has four characters whose lower-case forms spell "live", both directions; any other length never matches |
| StreamStatus.UpdateChannel | twitch4j/src/main/java/com/github/twitch4j/TwitchClientHelper.java:145-212 | the flag-by-flag body for one tracked channel yields exactly the record and events of the reference step `ChannelStep` |
| StreamStatus.FiredInStep | twitch4j/src/main/java/com/github/twitch4j/TwitchClientHelper.java:151-186 | for every event kind, the kind is published iff its flag's condition holds |
| StreamStatus.GoLiveIff | twitch4j/src/main/java/com/github/twitch4j/TwitchClientHelper.java:156-160 | go-live is published iff the cached state was known offline and the stream is present with type "live" ignoring case |
| StreamStatus.GoOfflineIff | twitch4j/src/main/java/com/github/twitch4j/TwitchClientHelper.java:176-180 | go-offline is published iff the cached state was known live and the stream is absent or not live |
| StreamStatus.NeverLiveAndOffline | twitch4j/src/main/java/com/github/twitch4j/TwitchClientHelper.java:156-186 | go-live and go-offline are never published in the same step |
| StreamStatus.TitleChangedIff | twitch4j/src/main/java/com/github/twitch4j/TwitchClientHelper.java:163-168 | title-changed is published iff live, the channel did not just go live, and the cached title is known and differs ignoring case |
| StreamStatus.GameChangedIff | twitch4j/src/main/java/com/github/twitch4j/TwitchClientHelper.java:163-174 | game-changed is published iff live, the channel did not just go live, and the cached game id is known and differs exactly |
| StreamStatus.EventsOrderedAndAboutChannel | twitch4j/src/main/java/com/github/twitch4j/TwitchClientHelper.java:149-212 | a step's events come in dispatch order, each kind at most once, and all name the channel with its cached user name |
| StreamStatus.CacheAfterStep | twitch4j/src/main/java/com/github/twitch4j/TwitchClientHelper.java:159-185 | afterwards the record is live with the stream's title and game, or offline with both null, and its follower fields are untouched |
| StreamStatus.UserNameFill | twitch4j/src/main/java/com/github/twitch4j/TwitchClientHelper.java:146-148 | a null user name is filled only from a present stream; a known one is kept |
| StreamStatus.SteadyStateIsSilent | twitch4j/src/main/java/com/github/twitch4j/TwitchClientHelper.java:156-185 | polling the same stream again changes nothing and publishes nothing |
| StreamStatus.OfflineThenLive | twitch4j/src/main/java/com/github/twitch4j/TwitchClientHelper.java:156-191 | a channel seen offline and then live publishes exactly one go-live with the new title and game |
| StreamStatus.FirstObservationIsSilent | twitch4j/src/main/java/com/github/twitch4j/TwitchClientHelper.java:156-180 | a record that knows neither live state, title nor game id publishes nothing on its first observation; `Valid()` keeps every record with unknown live state in that form |
| StreamStatus.StreamsByIdLookup | twitch4j/src/main/java/com/github/twitch4j/TwitchClientHelper.java:135-137 | the map holds the requested ids and the returned ids; an id maps to null iff it was requested and no stream was returned for it, otherwise to its last stream |
| StreamStatus.StreamsByIdKeys | twitch4j/src/main/java/com/github/twitch4j/TwitchClientHelper.java:135-137 | the map's keys are exactly the requested ids and the returned ids |
| StreamStatus.StreamsByIdNull | twitch4j/src/main/java/com/github/twitch4j/TwitchClientHelper.java:135-137 | an id maps to null only if no stream was returned for it |
| StreamStatus.StreamsByIdAbsent | twitch4j/src/main/java/com/github/twitch4j/TwitchClientHelper.java:136-137 | a requested id for which no stream was returned maps to null |
| StreamStatus.MissingChannelGoesOffline | twitch4j/src/main/java/com/github/twitch4j/TwitchClientHelper.java:136-180 | a requested channel that was live and is missing from the response publishes go-offline |
| StreamStatus.StreamsByIdLast | twitch4j/src/main/java/com/github/twitch4j/TwitchClientHelper.java:137 | a returned stream not followed by another for the same user id is what that id maps to |
| StreamStatus.IndexStreams | twitch4j/src/main/java/com/github/twitch4j/TwitchClientHelper.java:135-137 | the loop building the map yields `StreamsById` |
| StreamStatus.CacheAfterPageEntries | twitch4j/src/main/java/com/github/twitch4j/TwitchClientHelper.java:140-185 | after a page, untracked ids and ids not on the page are untouched; each tracked id on the page is live with the stream's data or offline with title and game null |
| StreamStatus.CacheAfterPageStep | twitch4j/src/main/java/com/github/twitch4j/TwitchClientHelper.java:140-145 | visiting one more tracked id steps it from the record it had before the page and changes no other entry |
| StreamStatus.EventsInOrderStep | twitch4j/src/main/java/com/github/twitch4j/TwitchClientHelper.java:140-212 | visiting one more id appends exactly its step's events |
| StreamStatus.CacheAfterPageTracked | twitch4j/src/main/java/com/github/twitch4j/TwitchClientHelper.java:140-142 | only the tracked ids on the page matter to the page's effect on the cache |
| StreamStatus.EventsInOrderAboutVisited | twitch4j/src/main/java/com/github/twitch4j/TwitchClientHelper.java:140-142 | every event of a page is about a visited id, so untracked ids get none |
| Followers.MaxFollowedAtIsMaximum | twitch4j/src/main/java/com/github/twitch4j/TwitchClientHelper.java:252-256 | the running maximum is null exactly for an empty page, else it is some record's time and no record is later |
| Followers.MaxFollowedAtPrefix | twitch4j/src/main/java/com/github/twitch4j/TwitchClientHelper.java:252-256 | one more record moves the running maximum to the later of it and that record's time |
| Followers.FreshPrefix | twitch4j/src/main/java/com/github/twitch4j/TwitchClientHelper.java:258-263 | one more record extends the selection by that record iff it is after the watermark |
| Followers.FollowEventsSnoc | twitch4j/src/main/java/com/github/twitch4j/TwitchClientHelper.java:260-262 | one more selected record appends exactly its new-follower event |
| Followers.FreshAppend | twitch4j/src/main/java/com/github/twitch4j/TwitchClientHelper.java:251-263 | selecting the records after the watermark distributes over concatenation, so it keeps list order |
| Followers.FreshSelects | twitch4j/src/main/java/com/github/twitch4j/TwitchClientHelper.java:258-259 | a record is selected iff it is on the page and strictly after the watermark |
| Followers.FollowEventsAt | twitch4j/src/main/java/com/github/twitch4j/TwitchClientHelper.java:260-262 | one new-follower event per selected record, at the same position, with the follower's id and name |
| Followers.ScanFollows | twitch4j/src/main/java/com/github/twitch4j/TwitchClientHelper.java:251-264 | the loop leaves the page's maximum time and the events for exactly the records after the old watermark, in order |
| Followers.FollowerUpdate | twitch4j/src/main/java/com/github/twitch4j/TwitchClientHelper.java:224-277 | the task body yields exactly the record, events, immediacy flag and backoff reset of the reference step `FollowerStep` |
| Followers.Bootstrap | twitch4j/src/main/java/com/github/twitch4j/TwitchClientHelper.java:227-277 | without a watermark: no request is consulted, no events, the watermark becomes now, the next call is immediate, no backoff reset |
| Followers.FailedRequest | twitch4j/src/main/java/com/github/twitch4j/TwitchClientHelper.java:278-285 | a failed request leaves the record as it was, publishes nothing and asks for the delay |
| Followers.CountEventIff | twitch4j/src/main/java/com/github/twitch4j/TwitchClientHelper.java:244-249 | the count event is published iff the old and new totals are both known and differ; the stored total becomes the new one |
| Followers.NewFollowerEvents | twitch4j/src/main/java/com/github/twitch4j/TwitchClientHelper.java:245-263 | a count event comes first iff both totals are known and differ, and carries the new and old totals; then one new-follower event per record strictly after the old watermark, in list order |
| Followers.SteadyWatermark | twitch4j/src/main/java/com/github/twitch4j/TwitchClientHelper.java:227-277 | the watermark becomes the page's latest time, null for an empty page; the backoff is reset and the next call is delayed |
| Followers.EmptyPageRebootstraps | twitch4j/src/main/java/com/github/twitch4j/TwitchClientHelper.java:227-275 | an empty page clears the watermark, so the next tick bootstraps from its own time |
| Followers.FollowMadeBeforeRebootstrapIsNotReported | twitch4j/src/main/java/com/github/twitch4j/TwitchClientHelper.java:227-275 | a concrete run: a follow made before the re-bootstrap is not reported; only the count event shows it |
| Followers.WatermarkCanMoveBack | twitch4j/src/main/java/com/github/twitch4j/TwitchClientHelper.java:252-275 | a concrete run: the watermark moves back to an earlier time |
| Watch.EnableIdIdempotent | twitch4j/src/main/java/com/github/twitch4j/TwitchClientHelper.java:323-334 | enabling an id twice is enabling it once, whatever name the second call carries |
| Watch.DisableIdIdempotent | twitch4j/src/main/java/com/github/twitch4j/TwitchClientHelper.java:369-378 | disabling an id twice is disabling it once |
| Watch.ReenableForgetsState | twitch4j/src/main/java/com/github/twitch4j/TwitchClientHelper.java:323-378 | disable then enable leaves a record that knows only the name |
| Watch.EnableAllEffect | twitch4j/src/main/java/com/github/twitch4j/TwitchClientHelper.java:309-314 | enabling a lookup result adds all its ids, keeps every existing cache entry, and creates entries only for ids not watched before |
| Watch.DisableAllEffect | twitch4j/src/main/java/com/github/twitch4j/TwitchClientHelper.java:356-361 | disabling a lookup result removes all its ids from the set and from the cache, and nothing else |
| Collections.SetToSeq | twitch4j/src/main/java/com/github/twitch4j/TwitchClientHelper.java:523-565 | a snapshot lists every element of the watch set exactly once |
| Collections.EnumeratesAppend | twitch4j/src/main/java/com/github/twitch4j/TwitchClientHelper.java:140-143 | a walk over a key set that appends a not yet visited key still visits each key once |
| Collections.Chunked | twitch4j/src/main/java/com/github/twitch4j/TwitchClientHelper.java:523-541 | the pages concatenate to the input, none is empty, none exceeds the limit, all but the last are full |
| Listener.AdvanceFromIndex | twitch4j/src/main/java/com/github/twitch4j/TwitchClientHelper.java:634-650 | k runs from index i reach index i+k, or the start command once the snapshot is used up |
| Listener.VisitsItemsInOrder | twitch4j/src/main/java/com/github/twitch4j/TwitchClientHelper.java:618-650 | a runnable over n items processes item k on its k-th run and schedules the start command after item n-1 |
| Listener.Listener.constructor | twitch4j/src/main/java/com/github/twitch4j/TwitchClientHelper.java:126-128 | a new listener has no pending task and holds the default strategy with the given `get()` |
| Listener.Listener.Update | twitch4j/src/main/java/com/github/twitch4j/TwitchClientHelper.java:491-518 | afterwards a task is pending iff the listener should run; a pending task is never replaced; a new start waits the backoff delay; the backoff is reset iff a pending task is cleared |
| Listener.Listener.Restart | twitch4j/src/main/java/com/github/twitch4j/TwitchClientHelper.java:523-541 | a running listener's start command submits a runnable over the snapshot, to run at once |
| Listener.Listener.RescheduleAfterEmpty | twitch4j/src/main/java/com/github/twitch4j/TwitchClientHelper.java:619-627 | a runnable over no items resets the backoff and schedules the start command after the reset delay |
| Listener.Listener.RescheduleAfterItem | twitch4j/src/main/java/com/github/twitch4j/TwitchClientHelper.java:634-650 | after an item the next item, or the start command after the last, is scheduled with delay 0 when the task said so, else with the backoff delay |
| Listener.Listener.ResetBackoff | twitch4j/src/main/java/com/github/twitch4j/TwitchClientHelper.java:234 | a successful request resets the failure count and keeps the base |
| Listener.Listener.SetBaseMillis | twitch4j/src/main/java/com/github/twitch4j/TwitchClientHelper.java:582-586 | the strategy gets the new base and keeps its failure count |
| Listener.Listener.Clear | twitch4j/src/main/java/com/github/twitch4j/TwitchClientHelper.java:596-602 | the handle is cleared; the backoff stays |
| ClientHelper.RateToDelay | twitch4j/src/main/java/com/github/twitch4j/TwitchClientHelper.java:572-574 | a rate of 0 fails; otherwise the delay is 1000 divided by the rate, truncated toward zero |
| PageWalk.PageWalkSkip | twitch4j/src/main/java/com/github/twitch4j/TwitchClientHelper.java:141-142 | visiting an untracked id only removes it from what remains |
| PageWalk.PageWalkVisit | twitch4j/src/main/java/com/github/twitch4j/TwitchClientHelper.java:140-143 | visiting a tracked id moves it from what remains to what is done, each id listed once |
| PageWalk.PageAppliedVisit | twitch4j/src/main/java/com/github/twitch4j/TwitchClientHelper.java:144-212 | stepping a tracked id keeps the walk's cache and log equal to the page's effect on the ids done so far |
| PageWalk.PageWalkDone | twitch4j/src/main/java/com/github/twitch4j/TwitchClientHelper.java:140-142 | a walk with nothing remaining has visited each tracked id of the page once and left the whole page's cache |
| PageWalk.WalkPage | twitch4j/src/main/java/com/github/twitch4j/TwitchClientHelper.java:140-212 | the loop over the page's map visits each tracked id once and yields exactly the page's cache `CacheAfterPage` and events `EventsInOrder` |
| ClientHelper.TwitchClientHelper.constructor | twitch4j/src/main/java/com/github/twitch4j/TwitchClientHelper.java:122-129 | empty sets, cache and log; both listeners stopped with the default strategy (base 1000 ms, no failures) |
| ClientHelper.TwitchClientHelper.StartOrStopEventGenerationThread | twitch4j/src/main/java/com/github/twitch4j/TwitchClientHelper.java:474-480 | each listener is updated against its own set, and afterwards the invariant holds |
| ClientHelper.TwitchClientHelper.EnableStreamEventListener | twitch4j/src/main/java/com/github/twitch4j/TwitchClientHelper.java:323-334 | returns true iff the id was newly added; a cache entry with the name is created only for a new id without one; the stream listener runs; nothing else changes |
| ClientHelper.TwitchClientHelper.DisableStreamEventListenerForId | twitch4j/src/main/java/com/github/twitch4j/TwitchClientHelper.java:369-378 | returns true iff the id was watched; it is removed and its shared cache entry always dropped; the stream listener stops iff the set became empty |
| ClientHelper.TwitchClientHelper.EnableFollowEventListener | twitch4j/src/main/java/com/github/twitch4j/TwitchClientHelper.java:414-425 | the same rules for the follower set and listener |
| ClientHelper.TwitchClientHelper.DisableFollowEventListenerForId | twitch4j/src/main/java/com/github/twitch4j/TwitchClientHelper.java:460-469 | the same rules for the follower set and listener, the shared entry dropped as well |
| ClientHelper.TwitchClientHelper.EnableStreamEventListenerForName | twitch4j/src/main/java/com/github/twitch4j/TwitchClientHelper.java:294-302 | acts as enable by id for the only user iff the lookup returned exactly one; otherwise nothing changes |
| ClientHelper.TwitchClientHelper.DisableStreamEventListenerForName | twitch4j/src/main/java/com/github/twitch4j/TwitchClientHelper.java:341-349 | acts as disable by id for the only user iff the lookup returned exactly one; otherwise nothing changes |
| ClientHelper.TwitchClientHelper.EnableFollowEventListenerForName | twitch4j/src/main/java/com/github/twitch4j/TwitchClientHelper.java:385-393 | the same for the follower kind |
| ClientHelper.TwitchClientHelper.DisableFollowEventListenerForName | twitch4j/src/main/java/com/github/twitch4j/TwitchClientHelper.java:432-440 | the same for the follower kind |
| ClientHelper.TwitchClientHelper.EnableStreamEventListenerForNames | twitch4j/src/main/java/com/github/twitch4j/TwitchClientHelper.java:309-314 | every returned user is enabled in order; the stream listener is started iff it was stopped and users were returned |
| ClientHelper.TwitchClientHelper.DisableStreamEventListenerForNames | twitch4j/src/main/java/com/github/twitch4j/TwitchClientHelper.java:356-361 | every returned user is disabled in order; the stream listener stops and its backoff resets iff the set became empty |
| ClientHelper.TwitchClientHelper.EnableFollowEventListenerForNames | twitch4j/src/main/java/com/github/twitch4j/TwitchClientHelper.java:400-405 | the same for the follower kind |
| ClientHelper.TwitchClientHelper.DisableFollowEventListenerForNames | twitch4j/src/main/java/com/github/twitch4j/TwitchClientHelper.java:447-452 | the same for the follower kind |
| ClientHelper.TwitchClientHelper.StreamStatusEventTask | twitch4j/src/main/java/com/github/twitch4j/TwitchClientHelper.java:131-220 | a failed request changes nothing; a successful one resets the backoff, steps each tracked id on the page from its record, keeps all other entries, and publishes the steps' events in visiting order |
| ClientHelper.TwitchClientHelper.ApplyPage | twitch4j/src/main/java/com/github/twitch4j/TwitchClientHelper.java:140-212 | the helper's cache becomes the page's cache `CacheAfterPage` over its tracked ids and the page's events `EventsInOrder` are appended, for an order that lists each tracked id of the page once; the watch sets stay |
| ClientHelper.TwitchClientHelper.FollowerEventTask | twitch4j/src/main/java/com/github/twitch4j/TwitchClientHelper.java:221-286 | the channel's record (created if absent) becomes the reference step's; its events are appended; the backoff resets iff a request succeeded |
| ClientHelper.TwitchClientHelper.RunPendingStreamStatus | twitch4j/src/main/java/com/github/twitch4j/TwitchClientHelper.java:523-650 | start: a runnable over pages of at most 100 ids of a snapshot; no pages: reset and restart after the delay; a page: the stream task, then the next page or the start command, always after the backoff delay and never after the skip-delay 0 |
| ClientHelper.TwitchClientHelper.RunPendingFollower | twitch4j/src/main/java/com/github/twitch4j/TwitchClientHelper.java:548-650 | start: a runnable over a snapshot of the ids; no ids: reset and restart after the delay; an id: the follower task, then the next id or the start command, with delay 0 when no request was made, else with the backoff delay |
| ClientHelper.TwitchClientHelper.SetThreadDelay | twitch4j/src/main/java/com/github/twitch4j/TwitchClientHelper.java:581-590 | both strategies get the new base and keep their failure counts; no pending task changes |
| ClientHelper.TwitchClientHelper.SetThreadRate | twitch4j/src/main/java/com/github/twitch4j/TwitchClientHelper.java:572-574 | fails, changing nothing, iff the rate is 0; otherwise sets the truncated delay 1000 / rate |
| ClientHelper.TwitchClientHelper.Close | twitch4j/src/main/java/com/github/twitch4j/TwitchClientHelper.java:595-606 | both handles and both sets are cleared; the cache, the log and the strategies stay, so a second call changes nothing more |

## Left out

- The Helix requests (`getStreams`, `getFollowers`, `getUsers`, `execute`, `isFailedExecution`)
  are not modelled. For the stream and follower requests the outcome is a parameter: a
  response, or `None` for a failed request.
  - A name lookup result is the list of users it returned. A failed `getUsers` throws to the
    caller; that exception is not modelled.
  - A bulk lookup is the concatenation of the lists returned for its pages of at most 100 names.
    When a later page fails, the source has already applied the earlier pages (lines 310-313
    and 357-360). The model can only show this by being passed the users of the pages that
    succeeded.
- The executor, `Future.cancel`, `synchronized` blocks and races between threads are not
  modelled. Only the sequential effect is: a pending action and its delay.
  - `cancel` on the task that is currently running is taken to succeed.
- Caffeine's expiry after ten minutes and its size bound of 10 000 entries depend on the clock
  and on eviction policy. The cache is a plain map.
- The `ExponentialBackoffStrategy` delay formula, jitter and any side effect of `get()` are not
  modelled, because that class is not part of this model. `get()` is an arbitrary function
  `delayOf` of the strategy's state, and a failed request does not change the failure count.
  - Consequence: nothing in the model raises `failures` above 0. In every reachable state a
    backoff reset changes nothing, so no run can observe the resets that `Listener.Update`,
    `ResetBackoff` and the two tasks promise, nor that `SetBaseMillis` keeps the count.
- `CollectionUtils.chunked` is not part of this model. `Collections.Chunked` assumes
  consecutive pages of at most 100 ids.
- `ChannelCache` is not part of this model. Its fields are taken from their uses.
  - The record is a value in the map; the source mutates the object in place. The two behave
    the same, because the object is only reached through the cache.
- Logging is not modelled.
- Building the concrete event objects is not modelled. Each transition publishes two event
  classes carrying the same data, and the model records one event per transition.
- `Instant.now()` is the parameter `now`. `Instant` is an integer compared with `>`.
- `equalsIgnoreCase` folds only ASCII letters.
- Null fields inside a returned stream are not modelled; the Helix records here have non-null
  fields. In the source only a null stream type throws (line 156). A null title or game id makes
  `equalsIgnoreCase` / `equals` return false, so title-changed or game-changed fires against any
  known cached value, and null is then stored (lines 166-175).
- The order in which a `HashMap` is visited is unspecified. The model visits the page's ids in an
  arbitrary order and reports it as a ghost sequence.
- The iteration order of a `ConcurrentHashMap` key set is also unspecified. A snapshot is any
  enumeration of the set.
- `REQUIRED_THREAD_COUNT` and the executor passed to the constructor are not modelled.
