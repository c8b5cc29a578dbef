/**
 * The stream-status task's walk over one page of results: the `streams` map is visited
 * one id at a time, each tracked id is stepped in the channel cache and its events are
 * published, and the walk ends with the cache and events the reference definitions
 * `CacheAfterPage` and `EventsInOrder` describe.
 */
module PageWalk {
  import opened Domain
  import opened Collections
  import opened StreamStatus

  /**
   * Which ids a walk over a page's `streams` map has visited: `done` holds the tracked
   * ids visited so far, listed once each by `order`, and `remaining` the ids still to
   * be visited; every tracked id of the page is in one or the other.
   */
  ghost predicate PageWalked(tracked: set<string>, streams: map<string, Option<Stream>>,
                             remaining: set<string>, done: set<string>, order: seq<string>)
  {
    && remaining <= streams.Keys
    && done <= streams.Keys && done <= tracked && done !! remaining
    && (forall id :: id in streams && id in tracked ==> id in done || id in remaining)
    && (forall i :: 0 <= i < |order| ==> order[i] in streams)
    && Enumerates(order, done)
  }

  /**
   * What the walk has applied so far: the ids in `done` have been stepped in `cache`
   * and the events of the ids in `order` appended to `log`, in that order.
   */
  ghost predicate PageApplied(cache0: map<string, ChannelCache>, streams: map<string, Option<Stream>>,
                              done: set<string>, order: seq<string>,
                              cache: map<string, ChannelCache>, log0: seq<Event>, log: seq<Event>)
  {
    && (forall i :: 0 <= i < |order| ==> order[i] in streams)
    && cache == CacheAfterPage(cache0, done, streams)
    && log == log0 + EventsInOrder(cache0, order, streams)
  }

  /** Visiting an untracked id of the page changes nothing but what remains. */
  lemma PageWalkSkip(tracked: set<string>, streams: map<string, Option<Stream>>,
                     remaining: set<string>, done: set<string>, order: seq<string>, id: string)
    requires PageWalked(tracked, streams, remaining, done, order)
    requires id in remaining && id !in tracked
    ensures PageWalked(tracked, streams, remaining - {id}, done, order)
  {
  }

  /** Visiting a tracked id moves it from what remains to what is done, at the end of the order. */
  lemma PageWalkVisit(tracked: set<string>, streams: map<string, Option<Stream>>,
                      remaining: set<string>, done: set<string>, order: seq<string>, id: string)
    requires PageWalked(tracked, streams, remaining, done, order)
    requires id in remaining && id in tracked
    ensures done <= streams.Keys && id in streams && id !in done
    ensures PageWalked(tracked, streams, remaining - {id}, done + {id}, order + [id])
  {
    EnumeratesAppend(order, done, id);
  }

  /** Stepping a tracked id not yet done keeps the walk in step with `CacheAfterPage` and `EventsInOrder`. */
  lemma PageAppliedVisit(cache0: map<string, ChannelCache>, streams: map<string, Option<Stream>>,
                         done: set<string>, order: seq<string>,
                         cache: map<string, ChannelCache>, log0: seq<Event>, log: seq<Event>, id: string)
    requires PageApplied(cache0, streams, done, order, cache, log0, log)
    requires done <= streams.Keys && id in streams && id !in done
    ensures var step := ChannelStep(CacheOrEmpty(cache, id), id, streams[id]);
      PageApplied(cache0, streams, done + {id}, order + [id], cache[id := step.cache], log0, log + step.events)
  {
    CacheAfterPageStep(cache0, done, streams, id);
    EventsInOrderStep(cache0, order, streams, id);
  }

  /** A walk with nothing remaining has applied the whole page. */
  lemma PageWalkDone(cache0: map<string, ChannelCache>, tracked: set<string>,
                     streams: map<string, Option<Stream>>, done: set<string>, order: seq<string>,
                     cache: map<string, ChannelCache>)
    requires PageWalked(tracked, streams, {}, done, order)
    requires cache == CacheAfterPage(cache0, done, streams)
    ensures Enumerates(order, streams.Keys * tracked)
    ensures cache == CacheAfterPage(cache0, tracked, streams)
  {
    assert done == streams.Keys * tracked;
    CacheAfterPageTracked(cache0, tracked, streams);
  }

  /**
   * The loop of the stream-status task over one page: every tracked id of `streams`
   * is stepped once, in some order, and its events appended to `log0`.
   */
  method WalkPage(cache0: map<string, ChannelCache>, tracked: set<string>,
                  streams: map<string, Option<Stream>>, log0: seq<Event>)
    returns (cache: map<string, ChannelCache>, log: seq<Event>, ghost order: seq<string>)
    ensures forall i :: 0 <= i < |order| ==> order[i] in streams
    ensures Enumerates(order, streams.Keys * tracked)
    ensures cache == CacheAfterPage(cache0, tracked, streams)
    ensures log == log0 + EventsInOrder(cache0, order, streams)
  {
    order := [];
    cache := cache0;
    log := log0;
    ghost var done: set<string> := {};
    var remaining := streams.Keys;
    assert PageWalked(tracked, streams, remaining, done, order);
    assert PageApplied(cache0, streams, done, order, cache, log0, log);
    while remaining != {}
      invariant PageWalked(tracked, streams, remaining, done, order)
      invariant PageApplied(cache0, streams, done, order, cache, log0, log)
      decreases remaining
    {
      var userId :| userId in remaining;
      if userId in tracked {
        PageWalkVisit(tracked, streams, remaining, done, order, userId);
        PageAppliedVisit(cache0, streams, done, order, cache, log0, log, userId);
        var next, events := UpdateChannel(CacheOrEmpty(cache, userId), userId, streams[userId]);
        cache, log := cache[userId := next], log + events;
        order, done := order + [userId], done + {userId};
        remaining := remaining - {userId};
      } else {
        PageWalkSkip(tracked, streams, remaining, done, order, userId);
        remaining := remaining - {userId};
      }
    }
    PageWalkDone(cache0, tracked, streams, done, order, cache);
  }
}
