/**
 * TwitchClientHelper: the watch sets of the two listener kinds, the channel cache they
 * share, the published events, and the two listeners (stream status, paged by at most
 * 100 ids; followers, one channel per tick). Every operation runs sequentially; the
 * executor is represented by the pending task each listener records, and a pending task
 * is run by `RunPendingStreamStatus` / `RunPendingFollower` with the request's outcome
 * as an argument.
 */
module ClientHelper {
  import opened Domain
  import opened Collections
  import opened StreamStatus
  import opened Followers
  import opened Watch
  import opened Listener
  import opened PageWalk

  /** The greatest number of streams or followers requested in a single call. */
  const MaxLimit: nat := 100

  /** Java's `long` division, truncating toward zero. */
  function TruncatedDiv(a: int, b: int): int
    requires b != 0
  {
    var q := (if a < 0 then -a else a) / (if b < 0 then -b else b);
    if (a < 0) == (b < 0) then q else -q
  }

  /**
   * `setThreadRate`'s delay, `1000 / threadRate`: `None` for the arithmetic exception
   * a rate of 0 raises; otherwise the quotient truncated toward zero.
   */
  function RateToDelay(threadRate: int): (delay: Option<int>)
    ensures delay.None? <==> threadRate == 0
    ensures threadRate > 0 ==> 0 <= delay.value && delay.value * threadRate <= 1000 < (delay.value + 1) * threadRate
    ensures threadRate < 0 ==> delay.value <= 0 && -delay.value * -threadRate <= 1000 < (-delay.value + 1) * -threadRate
  {
    if threadRate == 0 then None else Some(TruncatedDiv(1000, threadRate))
  }

  class TwitchClientHelper {
    /** The channel ids checked for live/offline changes. */
    var listenForGoLive: set<string>
    /** The channel ids checked for new followers. */
    var listenForFollow: set<string>
    /** The channel cache both listener kinds share. */
    var channelInformation: map<string, ChannelCache>
    /** Every event published so far, in publication order. */
    var published: seq<Event>
    /** The stream-status listener; its items are pages of channel ids. */
    const liveListener: Listener<seq<string>>
    /** The follower listener; its items are channel ids. */
    const followListener: Listener<string>

    /** The two listeners are distinct and well formed. */
    ghost predicate Wired()
      reads this, liveListener, followListener
    {
      liveListener as object != followListener as object && liveListener.Valid() && followListener.Valid()
    }

    /** Besides, each listener has a pending task exactly when its watch set is non-empty. */
    ghost predicate Valid()
      reads this, liveListener, followListener
    {
      && Wired()
      && (liveListener.future.Some? <==> listenForGoLive != {})
      && (followListener.future.Some? <==> listenForFollow != {})
      && CacheBlankWhileUnknown()
    }

    /** Every cached record whose live state is unknown knows no title or game id either. */
    ghost predicate CacheBlankWhileUnknown()
      reads this
    {
      forall id :: id in channelInformation ==> BlankWhileUnknown(channelInformation[id])
    }

    /** Both strategies start as copies of the default one, with `delayOf` as their `get()`. */
    constructor (delayOf: Backoff -> int)
      ensures Valid() && fresh(liveListener) && fresh(followListener)
      ensures listenForGoLive == {} && listenForFollow == {} && channelInformation == map[] && published == []
      ensures liveListener.backoff == DefaultBackoff && followListener.backoff == DefaultBackoff
      ensures liveListener.delayOf == delayOf && followListener.delayOf == delayOf
    {
      listenForGoLive := {};
      listenForFollow := {};
      channelInformation := map[];
      published := [];
      liveListener := new Listener(delayOf);
      followListener := new Listener(delayOf);
    }

    /** The watch set of the stream-status kind with the shared cache. */
    ghost function LiveWatched(): Watched
      reads this
    {
      Watched(listenForGoLive, channelInformation)
    }

    /** The watch set of the follower kind with the shared cache. */
    ghost function FollowWatched(): Watched
      reads this
    {
      Watched(listenForFollow, channelInformation)
    }

    /** The follower listener's state is as it was. */
    twostate predicate FollowListenerUnchanged()
      reads this, followListener
    {
      followListener.future == old(followListener.future) && followListener.backoff == old(followListener.backoff)
    }

    /** The stream-status listener's state is as it was. */
    twostate predicate LiveListenerUnchanged()
      reads this, liveListener
    {
      liveListener.future == old(liveListener.future) && liveListener.backoff == old(liveListener.backoff)
    }

    /** `startOrStopEventGenerationThread`: re-evaluate both listeners against their sets. */
    method StartOrStopEventGenerationThread()
      requires Wired() && CacheBlankWhileUnknown()
      modifies liveListener, followListener
      ensures Valid()
      ensures UpdatedBy(liveListener, listenForGoLive == {})
      ensures UpdatedBy(followListener, listenForFollow == {})
    {
      liveListener.Update(listenForGoLive == {});
      followListener.Update(listenForFollow == {});
    }

    /**
     * Enable the stream listener for an id and name: true iff the id was not yet
     * watched; a cache entry with the name is created only for a newly watched id
     * that has none. The stream listener starts if it was stopped.
     */
    method EnableStreamEventListener(channelId: string, channelName: string) returns (added: bool)
      requires Valid()
      modifies this, liveListener, followListener
      ensures Valid()
      ensures added == (channelId !in old(listenForGoLive))
      ensures LiveWatched() == EnableId(old(LiveWatched()), channelId, channelName)
      ensures listenForFollow == old(listenForFollow) && published == old(published)
      ensures UpdatedBy(liveListener, false) && FollowListenerUnchanged()
    {
      added := channelId !in listenForGoLive;
      listenForGoLive := listenForGoLive + {channelId};
      if added && channelId !in channelInformation {
        channelInformation := channelInformation[channelId := NamedCache(channelName)];
      }
      StartOrStopEventGenerationThread();
    }

    /**
     * Disable the stream listener for an id: true iff it was watched. The shared cache
     * entry is invalidated in every case, also while the follower kind watches the id.
     */
    method DisableStreamEventListenerForId(channelId: string) returns (removed: bool)
      requires Valid()
      modifies this, liveListener, followListener
      ensures Valid()
      ensures removed == (channelId in old(listenForGoLive))
      ensures LiveWatched() == DisableId(old(LiveWatched()), channelId)
      ensures listenForFollow == old(listenForFollow) && published == old(published)
      ensures UpdatedBy(liveListener, listenForGoLive == {}) && FollowListenerUnchanged()
    {
      removed := channelId in listenForGoLive;
      listenForGoLive := listenForGoLive - {channelId};
      channelInformation := channelInformation - {channelId};
      StartOrStopEventGenerationThread();
    }

    /** Enable the follower listener for an id and name; the same rules as for the stream listener. */
    method EnableFollowEventListener(channelId: string, channelName: string) returns (added: bool)
      requires Valid()
      modifies this, liveListener, followListener
      ensures Valid()
      ensures added == (channelId !in old(listenForFollow))
      ensures FollowWatched() == EnableId(old(FollowWatched()), channelId, channelName)
      ensures listenForGoLive == old(listenForGoLive) && published == old(published)
      ensures UpdatedBy(followListener, false) && LiveListenerUnchanged()
    {
      added := channelId !in listenForFollow;
      listenForFollow := listenForFollow + {channelId};
      if added && channelId !in channelInformation {
        channelInformation := channelInformation[channelId := NamedCache(channelName)];
      }
      StartOrStopEventGenerationThread();
    }

    /** Disable the follower listener for an id; the shared cache entry is invalidated in every case. */
    method DisableFollowEventListenerForId(channelId: string) returns (removed: bool)
      requires Valid()
      modifies this, liveListener, followListener
      ensures Valid()
      ensures removed == (channelId in old(listenForFollow))
      ensures FollowWatched() == DisableId(old(FollowWatched()), channelId)
      ensures listenForGoLive == old(listenForGoLive) && published == old(published)
      ensures UpdatedBy(followListener, listenForFollow == {}) && LiveListenerUnchanged()
    {
      removed := channelId in listenForFollow;
      listenForFollow := listenForFollow - {channelId};
      channelInformation := channelInformation - {channelId};
      StartOrStopEventGenerationThread();
    }

    /**
     * Enable the stream listener by name; `users` is what the user lookup returned for
     * that name. Only a lookup with exactly one user is acted on; otherwise nothing changes.
     */
    method EnableStreamEventListenerForName(users: seq<User>)
      requires Valid()
      modifies this, liveListener, followListener
      ensures Valid()
      ensures |users| != 1 ==> unchanged(this, liveListener, followListener)
      ensures |users| == 1 ==>
        && LiveWatched() == EnableId(old(LiveWatched()), users[0].id, users[0].login)
        && listenForFollow == old(listenForFollow) && published == old(published)
        && UpdatedBy(liveListener, false) && FollowListenerUnchanged()
    {
      if |users| == 1 {
        var _ := EnableStreamEventListener(users[0].id, users[0].login);
      }
    }

    /** Disable the stream listener by name; only a lookup with exactly one user is acted on. */
    method DisableStreamEventListenerForName(users: seq<User>)
      requires Valid()
      modifies this, liveListener, followListener
      ensures Valid()
      ensures |users| != 1 ==> unchanged(this, liveListener, followListener)
      ensures |users| == 1 ==>
        && LiveWatched() == DisableId(old(LiveWatched()), users[0].id)
        && listenForFollow == old(listenForFollow) && published == old(published)
        && UpdatedBy(liveListener, listenForGoLive == {}) && FollowListenerUnchanged()
    {
      if |users| == 1 {
        var _ := DisableStreamEventListenerForId(users[0].id);
      }
    }

    /** Enable the follower listener by name; only a lookup with exactly one user is acted on. */
    method EnableFollowEventListenerForName(users: seq<User>)
      requires Valid()
      modifies this, liveListener, followListener
      ensures Valid()
      ensures |users| != 1 ==> unchanged(this, liveListener, followListener)
      ensures |users| == 1 ==>
        && FollowWatched() == EnableId(old(FollowWatched()), users[0].id, users[0].login)
        && listenForGoLive == old(listenForGoLive) && published == old(published)
        && UpdatedBy(followListener, false) && LiveListenerUnchanged()
    {
      if |users| == 1 {
        var _ := EnableFollowEventListener(users[0].id, users[0].login);
      }
    }

    /** Disable the follower listener by name; only a lookup with exactly one user is acted on. */
    method DisableFollowEventListenerForName(users: seq<User>)
      requires Valid()
      modifies this, liveListener, followListener
      ensures Valid()
      ensures |users| != 1 ==> unchanged(this, liveListener, followListener)
      ensures |users| == 1 ==>
        && FollowWatched() == DisableId(old(FollowWatched()), users[0].id)
        && listenForGoLive == old(listenForGoLive) && published == old(published)
        && UpdatedBy(followListener, listenForFollow == {}) && LiveListenerUnchanged()
    {
      if |users| == 1 {
        var _ := DisableFollowEventListenerForId(users[0].id);
      }
    }

    /**
     * Enable the stream listener for many names; `users` is what the lookups of the
     * pages of names returned, page after page. Every returned user is enabled, in order.
     */
    method EnableStreamEventListenerForNames(users: seq<User>)
      requires Valid()
      modifies this, liveListener, followListener
      ensures Valid()
      ensures LiveWatched() == EnableAll(old(LiveWatched()), users)
      ensures listenForFollow == old(listenForFollow) && published == old(published)
      ensures liveListener.backoff == old(liveListener.backoff)
      ensures liveListener.future == if old(listenForGoLive) == {} && users != []
                                     then Some(Scheduled(StartCommand, liveListener.delayOf(old(liveListener.backoff))))
                                     else old(liveListener.future)
      ensures FollowListenerUnchanged()
    {
      var i := 0;
      while i < |users|
        invariant 0 <= i <= |users|
        invariant Valid()
        invariant EnableAll(LiveWatched(), users[i..]) == EnableAll(old(LiveWatched()), users)
        invariant old(listenForGoLive) <= listenForGoLive && (i > 0 ==> users[0].id in listenForGoLive)
        invariant listenForFollow == old(listenForFollow) && published == old(published)
        invariant liveListener.backoff == old(liveListener.backoff)
        invariant liveListener.future == if old(listenForGoLive) == {} && i > 0
                                         then Some(Scheduled(StartCommand, liveListener.delayOf(old(liveListener.backoff))))
                                         else old(liveListener.future)
        invariant FollowListenerUnchanged()
      {
        assert users[i..][1..] == users[i + 1..];
        var _ := EnableStreamEventListener(users[i].id, users[i].login);
        i := i + 1;
      }
    }

    /** Disable the stream listener for many names: every returned user is disabled, in order. */
    method DisableStreamEventListenerForNames(users: seq<User>)
      requires Valid()
      modifies this, liveListener, followListener
      ensures Valid()
      ensures LiveWatched() == DisableAll(old(LiveWatched()), users)
      ensures listenForFollow == old(listenForFollow) && published == old(published)
      ensures liveListener.future == if listenForGoLive == {} then None else old(liveListener.future)
      ensures liveListener.backoff == if old(listenForGoLive) != {} && listenForGoLive == {}
                                      then Reset(old(liveListener.backoff)) else old(liveListener.backoff)
      ensures FollowListenerUnchanged()
    {
      var i := 0;
      while i < |users|
        invariant 0 <= i <= |users|
        invariant Valid()
        invariant DisableAll(LiveWatched(), users[i..]) == DisableAll(old(LiveWatched()), users)
        invariant listenForGoLive <= old(listenForGoLive)
        invariant listenForFollow == old(listenForFollow) && published == old(published)
        invariant liveListener.future == if listenForGoLive == {} then None else old(liveListener.future)
        invariant liveListener.backoff == if old(listenForGoLive) != {} && listenForGoLive == {}
                                         then Reset(old(liveListener.backoff)) else old(liveListener.backoff)
        invariant FollowListenerUnchanged()
      {
        assert users[i..][1..] == users[i + 1..];
        var _ := DisableStreamEventListenerForId(users[i].id);
        i := i + 1;
      }
    }

    /** Enable the follower listener for many names: every returned user is enabled, in order. */
    method EnableFollowEventListenerForNames(users: seq<User>)
      requires Valid()
      modifies this, liveListener, followListener
      ensures Valid()
      ensures FollowWatched() == EnableAll(old(FollowWatched()), users)
      ensures listenForGoLive == old(listenForGoLive) && published == old(published)
      ensures followListener.backoff == old(followListener.backoff)
      ensures followListener.future == if old(listenForFollow) == {} && users != []
                                       then Some(Scheduled(StartCommand, followListener.delayOf(old(followListener.backoff))))
                                       else old(followListener.future)
      ensures LiveListenerUnchanged()
    {
      var i := 0;
      while i < |users|
        invariant 0 <= i <= |users|
        invariant Valid()
        invariant EnableAll(FollowWatched(), users[i..]) == EnableAll(old(FollowWatched()), users)
        invariant old(listenForFollow) <= listenForFollow && (i > 0 ==> users[0].id in listenForFollow)
        invariant listenForGoLive == old(listenForGoLive) && published == old(published)
        invariant followListener.backoff == old(followListener.backoff)
        invariant followListener.future == if old(listenForFollow) == {} && i > 0
                                           then Some(Scheduled(StartCommand, followListener.delayOf(old(followListener.backoff))))
                                           else old(followListener.future)
        invariant LiveListenerUnchanged()
      {
        assert users[i..][1..] == users[i + 1..];
        var _ := EnableFollowEventListener(users[i].id, users[i].login);
        i := i + 1;
      }
    }

    /** Disable the follower listener for many names: every returned user is disabled, in order. */
    method DisableFollowEventListenerForNames(users: seq<User>)
      requires Valid()
      modifies this, liveListener, followListener
      ensures Valid()
      ensures FollowWatched() == DisableAll(old(FollowWatched()), users)
      ensures listenForGoLive == old(listenForGoLive) && published == old(published)
      ensures followListener.future == if listenForFollow == {} then None else old(followListener.future)
      ensures followListener.backoff == if old(listenForFollow) != {} && listenForFollow == {}
                                        then Reset(old(followListener.backoff)) else old(followListener.backoff)
      ensures LiveListenerUnchanged()
    {
      var i := 0;
      while i < |users|
        invariant 0 <= i <= |users|
        invariant Valid()
        invariant DisableAll(FollowWatched(), users[i..]) == DisableAll(old(FollowWatched()), users)
        invariant listenForFollow <= old(listenForFollow)
        invariant listenForGoLive == old(listenForGoLive) && published == old(published)
        invariant followListener.future == if listenForFollow == {} then None else old(followListener.future)
        invariant followListener.backoff == if old(listenForFollow) != {} && listenForFollow == {}
                                           then Reset(old(followListener.backoff)) else old(followListener.backoff)
        invariant LiveListenerUnchanged()
      {
        assert users[i..][1..] == users[i + 1..];
        var _ := DisableFollowEventListenerForId(users[i].id);
        i := i + 1;
      }
    }

    /**
     * What the stream-status task did with a page: on a failed request nothing; on a
     * successful one the backoff is reset, every tracked id the page's `streams` map
     * holds is stepped from its cached record (visited in the order `order`, an
     * enumeration of those ids), every other entry is kept, and the steps' events are
     * appended in visiting order.
     */
    twostate predicate StreamPageApplied(channels: seq<string>, fetched: Option<seq<Stream>>, order: seq<string>)
      reads this, liveListener
    {
      && listenForGoLive == old(listenForGoLive) && listenForFollow == old(listenForFollow)
      && (fetched.None? ==>
            && channelInformation == old(channelInformation) && published == old(published)
            && liveListener.backoff == old(liveListener.backoff))
      && (fetched.Some? ==>
            var streams := StreamsById(channels, fetched.value);
            && liveListener.backoff == Reset(old(liveListener.backoff))
            && (forall i :: 0 <= i < |order| ==> order[i] in streams)
            && Enumerates(order, streams.Keys * listenForGoLive)
            && channelInformation == CacheAfterPage(old(channelInformation), listenForGoLive, streams)
            && published == old(published) + EventsInOrder(old(channelInformation), order, streams))
    }

    /**
     * The stream-status task for one page of ids; `fetched` is the stream list the
     * request returned, or `None` when it failed. The `streams` map is visited in an
     * unspecified order.
     */
    method StreamStatusEventTask(channels: seq<string>, fetched: Option<seq<Stream>>) returns (ghost order: seq<string>)
      requires Valid()
      modifies this, liveListener
      ensures Valid()
      ensures StreamPageApplied(channels, fetched, order)
      ensures liveListener.future == old(liveListener.future)
    {
      order := [];
      if fetched.None? {
        return;
      }
      var streams := IndexStreams(channels, fetched.value);
      liveListener.ResetBackoff();
      order := ApplyPage(streams);
    }

    /**
     * The successful half of the stream-status task: every tracked id of `streams` is
     * stepped and its events published, in the order `order`.
     */
    method ApplyPage(streams: map<string, Option<Stream>>) returns (ghost order: seq<string>)
      modifies this
      ensures forall i :: 0 <= i < |order| ==> order[i] in streams
      ensures Enumerates(order, streams.Keys * listenForGoLive)
      ensures channelInformation == CacheAfterPage(old(channelInformation), listenForGoLive, streams)
      ensures published == old(published) + EventsInOrder(old(channelInformation), order, streams)
      ensures listenForGoLive == old(listenForGoLive) && listenForFollow == old(listenForFollow)
    {
      var cache, log;
      cache, log, order := WalkPage(channelInformation, listenForGoLive, streams, published);
      channelInformation, published := cache, log;
    }

    /** What one follower tick did for `channelId`: the reference step applied to its cached record. */
    twostate predicate FollowerTickApplied(channelId: string, now: Instant, fetched: Option<FollowList>,
                                           nextRequestCanBeImmediate: bool)
      reads this, followListener
    {
      var r := FollowerStep(CacheOrEmpty(old(channelInformation), channelId), channelId, now, fetched);
      && listenForGoLive == old(listenForGoLive) && listenForFollow == old(listenForFollow)
      && nextRequestCanBeImmediate == r.nextRequestCanBeImmediate
      && channelInformation == old(channelInformation)[channelId := r.cache]
      && published == old(published) + r.events
      && followListener.backoff == if r.backoffReset then Reset(old(followListener.backoff)) else old(followListener.backoff)
    }

    /**
     * The follower task for one channel at time `now`; `fetched` is the follow list
     * the request returned, or `None` when it failed. The record is created if absent.
     */
    method FollowerEventTask(channelId: string, now: Instant, fetched: Option<FollowList>)
      returns (nextRequestCanBeImmediate: bool)
      requires Valid()
      modifies this, followListener
      ensures Valid()
      ensures FollowerTickApplied(channelId, now, fetched, nextRequestCanBeImmediate)
      ensures followListener.future == old(followListener.future)
    {
      var cached := CacheOrEmpty(channelInformation, channelId);
      var next, events, backoffReset;
      next, events, nextRequestCanBeImmediate, backoffReset := FollowerUpdate(cached, channelId, now, fetched);
      if backoffReset {
        followListener.ResetBackoff();
      }
      channelInformation := channelInformation[channelId := next];
      published := published + events;
    }

    /**
     * The executor runs the stream-status listener's pending task: the start command
     * submits a runnable over a snapshot of the watch set cut into pages of at most 100
     * ids; a runnable over no pages resets the backoff and starts again after its delay;
     * otherwise the pending page is polled (with `fetched` as the request's outcome)
     * and, the stream task never reporting that a request was skipped, the next page or
     * the start command is scheduled after the backoff delay.
     */
    method RunPendingStreamStatus(fetched: Option<seq<Stream>>) returns (ghost snapshot: seq<string>, ghost order: seq<string>)
      requires Valid()
      modifies this, liveListener
      ensures Valid()
      ensures old(liveListener.future).None? ==> unchanged(this, liveListener)
      ensures old(liveListener.future).Some? ==>
        var a := old(liveListener.future).value.action;
        && (a.StartCommand? ==>
              && unchanged(this) && liveListener.backoff == old(liveListener.backoff)
              && Enumerates(snapshot, listenForGoLive)
              && liveListener.future == Some(Scheduled(RunSnapshot(Chunked(snapshot, MaxLimit)), 0)))
        && (a.RunSnapshot? && a.items == [] ==>
              && unchanged(this) && liveListener.backoff == Reset(old(liveListener.backoff))
              && liveListener.future == Some(Scheduled(StartCommand, liveListener.delayOf(liveListener.backoff))))
        && (RunsItem(a) ==>
              && StreamPageApplied(ItemOf(a), fetched, order)
              && liveListener.future == Some(Scheduled(AfterItem(a), liveListener.delayOf(liveListener.backoff))))
    {
      snapshot, order := [], [];
      if liveListener.future.None? {
        return;
      }
      var a := liveListener.future.value.action;
      if a.StartCommand? {
        var ids := SetToSeq(listenForGoLive);
        snapshot := ids;
        liveListener.Restart(Chunked(ids, MaxLimit));
      } else if a.RunSnapshot? && a.items == [] {
        liveListener.RescheduleAfterEmpty();
      } else {
        order := StreamStatusEventTask(ItemOf(a), fetched);
        liveListener.RescheduleAfterItem(a, false);
      }
    }

    /**
     * The executor runs the follower listener's pending task: the start command submits
     * a runnable over a snapshot of the watch set; a runnable over no ids resets the
     * backoff and starts again after its delay; otherwise the pending channel is ticked
     * at `now` and the next channel or the start command is scheduled with no delay when
     * the tick made no request and after the backoff delay otherwise.
     */
    method RunPendingFollower(now: Instant, fetched: Option<FollowList>) returns (ghost snapshot: seq<string>)
      requires Valid()
      modifies this, followListener
      ensures Valid()
      ensures old(followListener.future).None? ==> unchanged(this, followListener)
      ensures old(followListener.future).Some? ==>
        var a := old(followListener.future).value.action;
        && (a.StartCommand? ==>
              && unchanged(this) && followListener.backoff == old(followListener.backoff)
              && Enumerates(snapshot, listenForFollow)
              && followListener.future == Some(Scheduled(RunSnapshot(snapshot), 0)))
        && (a.RunSnapshot? && a.items == [] ==>
              && unchanged(this) && followListener.backoff == Reset(old(followListener.backoff))
              && followListener.future == Some(Scheduled(StartCommand, followListener.delayOf(followListener.backoff))))
        && (RunsItem(a) ==>
              var r := FollowerStep(CacheOrEmpty(old(channelInformation), ItemOf(a)), ItemOf(a), now, fetched);
              && FollowerTickApplied(ItemOf(a), now, fetched, r.nextRequestCanBeImmediate)
              && followListener.future
                 == Some(Scheduled(AfterItem(a),
                                   if r.nextRequestCanBeImmediate then 0 else followListener.delayOf(followListener.backoff))))
    {
      snapshot := [];
      if followListener.future.None? {
        return;
      }
      var a := followListener.future.value.action;
      if a.StartCommand? {
        var ids := SetToSeq(listenForFollow);
        snapshot := ids;
        followListener.Restart(ids);
      } else if a.RunSnapshot? && a.items == [] {
        followListener.RescheduleAfterEmpty();
      } else {
        var skipDelay := FollowerEventTask(ItemOf(a), now, fetched);
        followListener.RescheduleAfterItem(a, skipDelay);
      }
    }

    /** `setThreadDelay`: both strategies get the new base delay and keep their failure counts. */
    method SetThreadDelay(threadDelay: int)
      requires Valid()
      modifies liveListener, followListener
      ensures Valid()
      ensures liveListener.backoff == WithBaseMillis(old(liveListener.backoff), threadDelay)
      ensures followListener.backoff == WithBaseMillis(old(followListener.backoff), threadDelay)
      ensures liveListener.future == old(liveListener.future) && followListener.future == old(followListener.future)
    {
      liveListener.SetBaseMillis(threadDelay);
      followListener.SetBaseMillis(threadDelay);
    }

    /**
     * `setThreadRate`: the delay `1000 / threadRate`, truncated; a rate of 0 throws
     * (`failed`) before anything changes.
     */
    method SetThreadRate(threadRate: int) returns (failed: bool)
      requires Valid()
      modifies liveListener, followListener
      ensures Valid()
      ensures failed <==> threadRate == 0
      ensures failed ==> unchanged(liveListener, followListener)
      ensures !failed ==>
        && liveListener.backoff == WithBaseMillis(old(liveListener.backoff), RateToDelay(threadRate).value)
        && followListener.backoff == WithBaseMillis(old(followListener.backoff), RateToDelay(threadRate).value)
        && liveListener.future == old(liveListener.future) && followListener.future == old(followListener.future)
    {
      var delay := RateToDelay(threadRate);
      if delay.None? {
        return true;
      }
      SetThreadDelay(delay.value);
      return false;
    }

    /** `close`: clear both pending tasks and both watch sets; the cache and the strategies stay. */
    method Close()
      requires Valid()
      modifies this, liveListener, followListener
      ensures Valid()
      ensures liveListener.future.None? && followListener.future.None?
      ensures listenForGoLive == {} && listenForFollow == {}
      ensures channelInformation == old(channelInformation) && published == old(published)
      ensures liveListener.backoff == old(liveListener.backoff) && followListener.backoff == old(followListener.backoff)
    {
      liveListener.Clear();
      followListener.Clear();
      listenForGoLive := {};
      listenForFollow := {};
    }
  }
}
