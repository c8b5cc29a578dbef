/**
 * The stream-status diff: what one poll of a page of channel ids does to the
 * cached record of each tracked channel, and which of the go-live, go-offline,
 * title-changed and game-changed events it publishes.
 */
module StreamStatus {
  import opened Domain

  /** A channel counts as live when its stream is present and its type is "live", ignoring case. */
  predicate IsLive(stream: Option<Stream>)
  {
    stream.Some? && EqualsIgnoreCase(stream.value.streamType, "live")
  }

  datatype ChannelStepResult = ChannelStepResult(cache: ChannelCache, events: seq<Event>)

  /**
   * The reference description of one tracked channel's step: the new cached record
   * and the events, in dispatch order. `wentLive` is computed first; the title and
   * game comparisons are made only when the channel did not just go live.
   */
  function ChannelStep(cached: ChannelCache, channelId: string, stream: Option<Stream>): ChannelStepResult
  {
    var name := if stream.Some? && cached.userName.None? then Some(stream.value.userName) else cached.userName;
    if IsLive(stream) then
      var s := stream.value;
      var wentLive := cached.isLive == Some(false);
      var titleChanged := !wentLive && cached.title.Some? && !EqualsIgnoreCase(cached.title.value, s.title);
      var gameChanged := !wentLive && cached.gameId.Some? && cached.gameId.value != s.gameId;
      ChannelStepResult(
        cached.(userName := name, isLive := Some(true), title := Some(s.title), gameId := Some(s.gameId)),
        (if wentLive then [GoLive(channelId, name, Some(s.title), Some(s.gameId))] else [])
        + (if titleChanged then [TitleChanged(channelId, name, Some(s.title))] else [])
        + (if gameChanged then [GameChanged(channelId, name, Some(s.gameId))] else []))
    else
      ChannelStepResult(
        cached.(userName := name, isLive := Some(false), title := None, gameId := None),
        if cached.isLive == Some(true) then [GoOffline(channelId, name)] else [])
  }

  /**
   * The body run for one tracked channel: fill the user name, set the cached fields
   * one after the other while raising the four dispatch flags, then publish in the
   * order go-live, go-offline, title-changed, game-changed.
   */
  method UpdateChannel(cached: ChannelCache, channelId: string, stream: Option<Stream>)
    returns (next: ChannelCache, events: seq<Event>)
    ensures ChannelStepResult(next, events) == ChannelStep(cached, channelId, stream)
  {
    next := cached;
    if stream.Some? && next.userName.None? {
      next := next.(userName := Some(stream.value.userName));
    }
    var channelName := next.userName;

    var dispatchGoLive, dispatchGoOffline, dispatchTitleChanged, dispatchGameChanged := false, false, false, false;
    if stream.Some? && EqualsIgnoreCase(stream.value.streamType, "live") {
      var s := stream.value;
      if next.isLive.Some? && next.isLive.value == false {
        dispatchGoLive := true;
      }
      next := next.(isLive := Some(true));
      var wasAlreadyLive := !dispatchGoLive && next.isLive.value == true;
      if wasAlreadyLive && next.title.Some? && !EqualsIgnoreCase(next.title.value, s.title) {
        dispatchTitleChanged := true;
      }
      next := next.(title := Some(s.title));
      if wasAlreadyLive && next.gameId.Some? && next.gameId.value != s.gameId {
        dispatchGameChanged := true;
      }
      next := next.(gameId := Some(s.gameId));
    } else {
      if next.isLive.Some? && next.isLive.value == true {
        dispatchGoOffline := true;
      }
      next := next.(isLive := Some(false));
      next := next.(title := None);
      next := next.(gameId := None);
    }

    events := [];
    if dispatchGoLive {
      events := events + [GoLive(channelId, channelName, next.title, next.gameId)];
    }
    if dispatchGoOffline {
      events := events + [GoOffline(channelId, channelName)];
    }
    if dispatchTitleChanged {
      events := events + [TitleChanged(channelId, channelName, next.title)];
    }
    if dispatchGameChanged {
      events := events + [GameChanged(channelId, channelName, next.gameId)];
    }
  }

  /** The kind of a stream-status event, in dispatch order. */
  datatype StatusKind = GoLiveKind | GoOfflineKind | TitleKind | GameKind | OtherKind

  function KindOf(e: Event): StatusKind
  {
    match e
    case GoLive(_, _, _, _) => GoLiveKind
    case GoOffline(_, _) => GoOfflineKind
    case TitleChanged(_, _, _) => TitleKind
    case GameChanged(_, _, _) => GameKind
    case _ => OtherKind
  }

  function Rank(k: StatusKind): nat
  {
    match k
    case GoLiveKind => 0
    case GoOfflineKind => 1
    case TitleKind => 2
    case GameKind => 3
    case OtherKind => 4
  }

  /** Some event of kind `k` is in `events`. */
  predicate Fired(events: seq<Event>, k: StatusKind)
  {
    exists i :: 0 <= i < |events| && KindOf(events[i]) == k
  }

  /** An event of kind `k` is in a concatenation iff it is in one of the parts. */
  lemma FiredAppend(a: seq<Event>, b: seq<Event>, k: StatusKind)
    ensures Fired(a + b, k) <==> Fired(a, k) || Fired(b, k)
  {
    if Fired(a + b, k) {
      var i :| 0 <= i < |a + b| && KindOf((a + b)[i]) == k;
      if i < |a| {
        assert KindOf(a[i]) == k;
      } else {
        assert KindOf(b[i - |a|]) == k;
      }
    }
    if Fired(a, k) {
      var i :| 0 <= i < |a| && KindOf(a[i]) == k;
      assert KindOf((a + b)[i]) == k;
    }
    if Fired(b, k) {
      var i :| 0 <= i < |b| && KindOf(b[i]) == k;
      assert KindOf((a + b)[|a| + i]) == k;
    }
  }

  /** Which kinds the events of one step contain, flag by flag. */
  lemma FiredInStep(cached: ChannelCache, channelId: string, stream: Option<Stream>, k: StatusKind)
    ensures Fired(ChannelStep(cached, channelId, stream).events, k) <==>
      if IsLive(stream) then
        || (k == GoLiveKind && cached.isLive == Some(false))
        || (k == TitleKind && cached.isLive != Some(false) && cached.title.Some?
            && !EqualsIgnoreCase(cached.title.value, stream.value.title))
        || (k == GameKind && cached.isLive != Some(false) && cached.gameId.Some?
            && cached.gameId.value != stream.value.gameId)
      else
        k == GoOfflineKind && cached.isLive == Some(true)
  {
    var evs := ChannelStep(cached, channelId, stream).events;
    if IsLive(stream) {
      var s := stream.value;
      var name := if cached.userName.None? then Some(s.userName) else cached.userName;
      var wentLive := cached.isLive == Some(false);
      var a := if wentLive then [GoLive(channelId, name, Some(s.title), Some(s.gameId))] else [];
      var b := if !wentLive && cached.title.Some? && !EqualsIgnoreCase(cached.title.value, s.title)
               then [TitleChanged(channelId, name, Some(s.title))] else [];
      var c := if !wentLive && cached.gameId.Some? && cached.gameId.value != s.gameId
               then [GameChanged(channelId, name, Some(s.gameId))] else [];
      assert evs == a + b + c;
      FiredAppend(a + b, c, k);
      FiredAppend(a, b, k);
      assert a != [] ==> KindOf(a[0]) == GoLiveKind;
      assert b != [] ==> KindOf(b[0]) == TitleKind;
      assert c != [] ==> KindOf(c[0]) == GameKind;
    } else if cached.isLive == Some(true) {
      assert KindOf(evs[0]) == GoOfflineKind;
    }
  }

  /** Go-live fires iff the cached state was known offline and the stream is live now. */
  lemma GoLiveIff(cached: ChannelCache, channelId: string, stream: Option<Stream>)
    ensures Fired(ChannelStep(cached, channelId, stream).events, GoLiveKind)
        <==> cached.isLive == Some(false) && IsLive(stream)
  {
    FiredInStep(cached, channelId, stream, GoLiveKind);
  }

  /** Go-offline fires iff the cached state was known live and the stream is absent or not live. */
  lemma GoOfflineIff(cached: ChannelCache, channelId: string, stream: Option<Stream>)
    ensures Fired(ChannelStep(cached, channelId, stream).events, GoOfflineKind)
        <==> cached.isLive == Some(true) && !IsLive(stream)
  {
    FiredInStep(cached, channelId, stream, GoOfflineKind);
  }

  /** Go-live and go-offline never fire in the same step. */
  lemma NeverLiveAndOffline(cached: ChannelCache, channelId: string, stream: Option<Stream>)
    ensures var evs := ChannelStep(cached, channelId, stream).events;
      !(Fired(evs, GoLiveKind) && Fired(evs, GoOfflineKind))
  {
    GoLiveIff(cached, channelId, stream);
    GoOfflineIff(cached, channelId, stream);
  }

  /**
   * Title-changed fires iff the stream is live, the channel did not just go live
   * (the cached state was unknown or live), and the cached title is known and
   * differs from the stream's title ignoring case.
   */
  lemma TitleChangedIff(cached: ChannelCache, channelId: string, stream: Option<Stream>)
    ensures Fired(ChannelStep(cached, channelId, stream).events, TitleKind)
        <==> IsLive(stream) && cached.isLive != Some(false)
             && cached.title.Some? && !EqualsIgnoreCase(cached.title.value, stream.value.title)
  {
    FiredInStep(cached, channelId, stream, TitleKind);
  }

  /** Game-changed fires under the same guard, comparing the game id exactly. */
  lemma GameChangedIff(cached: ChannelCache, channelId: string, stream: Option<Stream>)
    ensures Fired(ChannelStep(cached, channelId, stream).events, GameKind)
        <==> IsLive(stream) && cached.isLive != Some(false)
             && cached.gameId.Some? && cached.gameId.value != stream.value.gameId
  {
    FiredInStep(cached, channelId, stream, GameKind);
  }

  /**
   * The events of one step come in dispatch order, each kind at most once, and all
   * name the channel with its (possibly just filled) cached user name.
   */
  lemma EventsOrderedAndAboutChannel(cached: ChannelCache, channelId: string, stream: Option<Stream>)
    ensures var r := ChannelStep(cached, channelId, stream);
      && (forall i, j :: 0 <= i < j < |r.events| ==> Rank(KindOf(r.events[i])) < Rank(KindOf(r.events[j])))
      && (forall i :: 0 <= i < |r.events| ==> KindOf(r.events[i]) != OtherKind)
      && (forall i :: 0 <= i < |r.events| ==>
            r.events[i].channelId == channelId && r.events[i].channelName == r.cache.userName)
  {
  }

  /**
   * After the step the record is either live with the stream's title and game id,
   * or offline with both cleared; the follower fields are untouched.
   */
  lemma CacheAfterStep(cached: ChannelCache, channelId: string, stream: Option<Stream>)
    ensures var c := ChannelStep(cached, channelId, stream).cache;
      && (IsLive(stream) ==>
            c.isLive == Some(true) && c.title == Some(stream.value.title) && c.gameId == Some(stream.value.gameId))
      && (!IsLive(stream) ==> c.isLive == Some(false) && c.title.None? && c.gameId.None?)
      && c.followers == cached.followers && c.lastFollowCheck == cached.lastFollowCheck
  {
  }

  /** A missing user name is filled only from a present stream; a known one is kept. */
  lemma UserNameFill(cached: ChannelCache, channelId: string, stream: Option<Stream>)
    ensures ChannelStep(cached, channelId, stream).cache.userName
         == if cached.userName.Some? then cached.userName
            else if stream.Some? then Some(stream.value.userName)
            else None
  {
  }

  /** Polling the same stream twice: the second step changes nothing and publishes nothing. */
  lemma SteadyStateIsSilent(cached: ChannelCache, channelId: string, stream: Option<Stream>)
    ensures var first := ChannelStep(cached, channelId, stream).cache;
      ChannelStep(first, channelId, stream) == ChannelStepResult(first, [])
  {
    if IsLive(stream) {
      EqualsIgnoreCaseIsReflexiveAndSymmetric(stream.value.title, stream.value.title);
    }
  }

  /**
   * A channel seen offline and then live publishes exactly one go-live event,
   * carrying the new title and game, and no title or game change against stale data.
   */
  lemma OfflineThenLive(cached: ChannelCache, channelId: string, offline: Option<Stream>, live: Stream)
    requires !IsLive(offline) && IsLive(Some(live))
    ensures var c := ChannelStep(cached, channelId, offline).cache;
      ChannelStep(c, channelId, Some(live)).events
        == [GoLive(channelId, ChannelStep(c, channelId, Some(live)).cache.userName, Some(live.title), Some(live.gameId))]
  {
  }

  /**
   * A record whose live state is still unknown (a fresh or just re-created entry)
   * publishes no event on its first observation, live or not.
   */
  lemma FirstObservationIsSilent(cached: ChannelCache, channelId: string, stream: Option<Stream>)
    requires cached.isLive.None? && cached.title.None? && cached.gameId.None?
    ensures ChannelStep(cached, channelId, stream).events == []
  {
  }

  /**
   * `streams`: every requested id mapped to null, then every returned stream stored
   * under its user id, a later stream for the same id replacing an earlier one.
   */
  function StreamsById(channels: seq<string>, response: seq<Stream>): map<string, Option<Stream>>
    decreases |response|
  {
    if response == [] then map id | id in channels :: None
    else
      var last := response[|response| - 1];
      StreamsById(channels, response[..|response| - 1])[last.userId := Some(last)]
  }

  /** The map holds the requested ids and the returned ids, and no others. */
  lemma {:induction false} StreamsByIdKeys(channels: seq<string>, response: seq<Stream>)
    ensures forall id ::
      id in StreamsById(channels, response) <==> id in channels || exists i :: 0 <= i < |response| && response[i].userId == id
    decreases |response|
  {
    if response != [] {
      var n := |response| - 1;
      StreamsByIdKeys(channels, response[..n]);
      forall id | id in StreamsById(channels, response)
        ensures id in channels || exists i :: 0 <= i < |response| && response[i].userId == id
      {
        if id != response[n].userId && id !in channels {
          var i :| 0 <= i < n && response[..n][i].userId == id;
          assert response[i].userId == id;
        }
      }
      forall id | id in channels || exists i :: 0 <= i < |response| && response[i].userId == id
        ensures id in StreamsById(channels, response)
      {
        if id != response[n].userId && id !in channels {
          var i :| 0 <= i < |response| && response[i].userId == id;
          assert i < n && response[..n][i].userId == id;
        }
      }
    }
  }

  /** An id maps to null only if no stream was returned for it. */
  lemma {:induction false} StreamsByIdNull(channels: seq<string>, response: seq<Stream>)
    ensures forall id ::
      id in StreamsById(channels, response) && StreamsById(channels, response)[id].None? ==> forall i :: 0 <= i < |response| ==> response[i].userId != id
    decreases |response|
  {
    if response != [] {
      var n := |response| - 1;
      StreamsByIdNull(channels, response[..n]);
      var m := StreamsById(channels, response);
      var prev := StreamsById(channels, response[..n]);
      assert m == prev[response[n].userId := Some(response[n])];
      forall id | id in m && m[id].None?
        ensures forall i :: 0 <= i < |response| ==> response[i].userId != id
      {
        assert id != response[n].userId;
        assert id in prev && prev[id].None?;
        forall i | 0 <= i < |response| ensures response[i].userId != id {
          if i < n {
            assert response[..n][i] == response[i];
          }
        }
      }
    }
  }

  /** A requested id for which no stream was returned maps to null. */
  lemma {:induction false} StreamsByIdAbsent(channels: seq<string>, response: seq<Stream>, id: string)
    requires id in channels
    requires forall i :: 0 <= i < |response| ==> response[i].userId != id
    ensures id in StreamsById(channels, response) && StreamsById(channels, response)[id] == None
    decreases |response|
  {
    if response != [] {
      StreamsByIdAbsent(channels, response[..|response| - 1], id);
    }
  }

  /** No stream after position `i` of `response` has the same user id. */
  predicate LastForUser(response: seq<Stream>, i: int)
    requires 0 <= i < |response|
  {
    forall j :: i < j < |response| ==> response[j].userId != response[i].userId
  }

  /** A returned stream not followed by another for the same id is what its id maps to. */
  lemma {:induction false} StreamsByIdLast(channels: seq<string>, response: seq<Stream>)
    ensures forall i :: 0 <= i < |response| && LastForUser(response, i) ==>
      response[i].userId in StreamsById(channels, response)
      && StreamsById(channels, response)[response[i].userId] == Some(response[i])
    decreases |response|
  {
    if response != [] {
      var n := |response| - 1;
      var prefix := response[..n];
      StreamsByIdLast(channels, prefix);
      var m := StreamsById(channels, response);
      var prev := StreamsById(channels, prefix);
      assert m == prev[response[n].userId := Some(response[n])];
      forall i | 0 <= i < |response| && LastForUser(response, i)
        ensures response[i].userId in m && m[response[i].userId] == Some(response[i])
      {
        if i < n {
          assert response[n].userId != response[i].userId;
          assert prefix[i] == response[i];
          assert LastForUser(prefix, i) by {
            forall j | i < j < n ensures prefix[j].userId != prefix[i].userId {
              assert prefix[j] == response[j];
            }
          }
        }
      }
    }
  }

  /**
   * The map holds the requested ids and the returned ids; an id maps to null iff it was
   * requested and no stream was returned for it; each returned id maps to its last stream.
   */
  lemma StreamsByIdLookup(channels: seq<string>, response: seq<Stream>)
    ensures var m := StreamsById(channels, response);
      && (forall id :: id in m <==> id in channels || exists i :: 0 <= i < |response| && response[i].userId == id)
      && (forall id :: id in m && m[id].None? ==> forall i :: 0 <= i < |response| ==> response[i].userId != id)
      && (forall id :: id in channels && (forall i :: 0 <= i < |response| ==> response[i].userId != id)
            ==> id in m && m[id] == None)
      && (forall i :: 0 <= i < |response| && LastForUser(response, i)
            ==> response[i].userId in m && m[response[i].userId] == Some(response[i]))
  {
    StreamsByIdKeys(channels, response);
    StreamsByIdNull(channels, response);
    StreamsByIdLast(channels, response);
    forall id | id in channels && (forall i :: 0 <= i < |response| ==> response[i].userId != id)
      ensures id in StreamsById(channels, response) && StreamsById(channels, response)[id] == None
    {
      StreamsByIdAbsent(channels, response, id);
    }
  }

  /**
   * A requested channel that was live and is missing from the response is mapped to null,
   * so its step publishes go-offline.
   */
  lemma MissingChannelGoesOffline(cached: ChannelCache, channels: seq<string>, response: seq<Stream>, id: string)
    requires id in channels && cached.isLive == Some(true)
    requires forall i :: 0 <= i < |response| ==> response[i].userId != id
    ensures id in StreamsById(channels, response)
    ensures Fired(ChannelStep(cached, id, StreamsById(channels, response)[id]).events, GoOfflineKind)
  {
    StreamsByIdAbsent(channels, response, id);
    GoOfflineIff(cached, id, StreamsById(channels, response)[id]);
  }

  /** Building `streams` from the request and the response, as the task does. */
  method IndexStreams(channels: seq<string>, response: seq<Stream>) returns (streams: map<string, Option<Stream>>)
    ensures streams == StreamsById(channels, response)
  {
    streams := map id | id in channels :: None;
    var i := 0;
    while i < |response|
      invariant 0 <= i <= |response|
      invariant streams == StreamsById(channels, response[..i])
    {
      assert response[..i + 1][..i] == response[..i];
      streams := streams[response[i].userId := Some(response[i])];
      i := i + 1;
    }
    assert response[..i] == response;
  }

  /** The cache after a successful page: every tracked id of `streams` stepped, every other entry kept. */
  function CacheAfterPage(cache: map<string, ChannelCache>, tracked: set<string>, streams: map<string, Option<Stream>>)
    : map<string, ChannelCache>
  {
    map id | id in cache.Keys + (streams.Keys * tracked) ::
      if id in streams && id in tracked then ChannelStep(CacheOrEmpty(cache, id), id, streams[id]).cache
      else cache[id]
  }

  /** The events of a page, channel by channel in the order `order` visits them. */
  function EventsInOrder(cache: map<string, ChannelCache>, order: seq<string>, streams: map<string, Option<Stream>>)
    : seq<Event>
    requires forall i :: 0 <= i < |order| ==> order[i] in streams
    decreases |order|
  {
    if order == [] then []
    else
      var id := order[|order| - 1];
      EventsInOrder(cache, order[..|order| - 1], streams) + ChannelStep(CacheOrEmpty(cache, id), id, streams[id]).events
  }

  /**
   * A page leaves untracked ids untouched, and leaves each tracked id of the page
   * either live with its stream's title and game or offline with both cleared.
   */
  lemma CacheAfterPageEntries(cache: map<string, ChannelCache>, tracked: set<string>,
                              streams: map<string, Option<Stream>>, id: string)
    ensures var c := CacheAfterPage(cache, tracked, streams);
      && (id !in tracked || id !in streams ==> (id in c <==> id in cache) && (id in cache ==> c[id] == cache[id]))
      && (id in tracked && id in streams ==>
            id in c
            && (IsLive(streams[id]) ==> c[id].isLive == Some(true) && c[id].title == Some(streams[id].value.title)
                                        && c[id].gameId == Some(streams[id].value.gameId))
            && (!IsLive(streams[id]) ==> c[id].isLive == Some(false) && c[id].title.None? && c[id].gameId.None?))
  {
    if id in tracked && id in streams {
      CacheAfterStep(CacheOrEmpty(cache, id), id, streams[id]);
    }
  }

  /** Stepping one more tracked id of the page, from the entry it had before the page. */
  lemma CacheAfterPageStep(cache: map<string, ChannelCache>, done: set<string>,
                           streams: map<string, Option<Stream>>, id: string)
    requires done <= streams.Keys && id in streams && id !in done
    ensures CacheOrEmpty(CacheAfterPage(cache, done, streams), id) == CacheOrEmpty(cache, id)
    ensures CacheAfterPage(cache, done + {id}, streams)
         == CacheAfterPage(cache, done, streams)[id := ChannelStep(CacheOrEmpty(cache, id), id, streams[id]).cache]
  {
  }

  /** Visiting one more id appends its events. */
  lemma EventsInOrderStep(cache: map<string, ChannelCache>, order: seq<string>,
                          streams: map<string, Option<Stream>>, id: string)
    requires (forall i :: 0 <= i < |order| ==> order[i] in streams) && id in streams
    ensures EventsInOrder(cache, order + [id], streams)
         == EventsInOrder(cache, order, streams) + ChannelStep(CacheOrEmpty(cache, id), id, streams[id]).events
  {
    assert (order + [id])[..|order|] == order;
  }

  /** Only the tracked ids the page holds matter to the page's effect on the cache. */
  lemma CacheAfterPageTracked(cache: map<string, ChannelCache>, tracked: set<string>,
                              streams: map<string, Option<Stream>>)
    ensures CacheAfterPage(cache, streams.Keys * tracked, streams) == CacheAfterPage(cache, tracked, streams)
  {
  }

  /**
   * The events of a page are about the visited ids only, so an id the walk skips
   * (untracked, or not on the page) gets none.
   */
  lemma {:induction false} EventsInOrderAboutVisited(cache: map<string, ChannelCache>, order: seq<string>,
                                                     streams: map<string, Option<Stream>>)
    requires forall i :: 0 <= i < |order| ==> order[i] in streams
    ensures forall e :: e in EventsInOrder(cache, order, streams) ==> e.channelId in order
    decreases |order|
  {
    if order != [] {
      var id := order[|order| - 1];
      var prefix := order[..|order| - 1];
      EventsInOrderAboutVisited(cache, prefix, streams);
      EventsOrderedAndAboutChannel(CacheOrEmpty(cache, id), id, streams[id]);
      forall e | e in EventsInOrder(cache, order, streams)
        ensures e.channelId in order
      {
        if e in EventsInOrder(cache, prefix, streams) {
          assert e.channelId in prefix;
        }
      }
    }
  }
}
