/**
 * The follower diff: one tick of the follower listener for one channel. A channel
 * without a watermark is bootstrapped without a request; otherwise one page of the
 * most recent follows is compared with the stored total and the watermark.
 */
module Followers {
  import opened Domain

  /** The running maximum of the loop over the follow list: `t` replaces `latest` only when later. */
  function Later(latest: Option<Instant>, t: Instant): Instant
  {
    if latest.None? || t > latest.value then t else latest.value
  }

  /** The latest `followedAt` of a page, or null for an empty page. */
  function MaxFollowedAt(follows: seq<Follow>): Option<Instant>
    decreases |follows|
  {
    if follows == [] then None
    else Some(Later(MaxFollowedAt(follows[..|follows| - 1]), follows[|follows| - 1].followedAt))
  }

  /** The records followed strictly after `since`, in list order. */
  function Fresh(follows: seq<Follow>, since: Instant): seq<Follow>
    decreases |follows|
  {
    if follows == [] then []
    else
      var last := follows[|follows| - 1];
      Fresh(follows[..|follows| - 1], since) + (if last.followedAt > since then [last] else [])
  }

  /** One new-follower event per record, in list order. */
  function FollowEvents(channelId: string, channelName: Option<string>, follows: seq<Follow>): seq<Event>
    decreases |follows|
  {
    if follows == [] then []
    else
      var last := follows[|follows| - 1];
      FollowEvents(channelId, channelName, follows[..|follows| - 1])
        + [NewFollower(channelId, channelName, last.fromId, last.fromName)]
  }

  /** The maximum is null exactly for an empty page; otherwise it is some record's time and no record is later. */
  lemma {:induction false} MaxFollowedAtIsMaximum(follows: seq<Follow>)
    ensures MaxFollowedAt(follows).None? <==> follows == []
    ensures MaxFollowedAt(follows).Some? ==>
      && (exists i :: 0 <= i < |follows| && follows[i].followedAt == MaxFollowedAt(follows).value)
      && (forall i :: 0 <= i < |follows| ==> follows[i].followedAt <= MaxFollowedAt(follows).value)
    decreases |follows|
  {
    if follows != [] {
      var n := |follows| - 1;
      var prefix := follows[..n];
      MaxFollowedAtIsMaximum(prefix);
      var m := MaxFollowedAt(follows).value;
      if MaxFollowedAt(prefix).Some? && m == MaxFollowedAt(prefix).value {
        var i :| 0 <= i < |prefix| && prefix[i].followedAt == MaxFollowedAt(prefix).value;
        assert follows[i].followedAt == m;
      } else {
        assert follows[n].followedAt == m;
      }
      forall i | 0 <= i < |follows| ensures follows[i].followedAt <= m {
        if i < n {
          assert prefix[i] == follows[i];
        }
      }
    }
  }

  /** Selecting newer records distributes over concatenation, so it keeps list order. */
  lemma {:induction false} FreshAppend(a: seq<Follow>, b: seq<Follow>, since: Instant)
    ensures Fresh(a + b, since) == Fresh(a, since) + Fresh(b, since)
    decreases |b|
  {
    if b == [] {
      assert a + b == a;
    } else {
      var n := |b| - 1;
      assert (a + b)[..|a + b| - 1] == a + b[..n];
      FreshAppend(a, b[..n], since);
    }
  }

  /** A record is selected iff it is on the page and followed strictly after `since`. */
  lemma {:induction false} FreshSelects(follows: seq<Follow>, since: Instant)
    ensures forall f :: f in Fresh(follows, since) <==> f in follows && f.followedAt > since
    ensures |Fresh(follows, since)| <= |follows|
    decreases |follows|
  {
    if follows != [] {
      var n := |follows| - 1;
      FreshSelects(follows[..n], since);
      assert follows == follows[..n] + [follows[n]];
    }
  }

  /** The events name every selected record once, in order. */
  lemma {:induction false} FollowEventsAt(channelId: string, channelName: Option<string>, follows: seq<Follow>)
    ensures |FollowEvents(channelId, channelName, follows)| == |follows|
    ensures forall i :: 0 <= i < |follows| ==>
      FollowEvents(channelId, channelName, follows)[i]
        == NewFollower(channelId, channelName, follows[i].fromId, follows[i].fromName)
    decreases |follows|
  {
    if follows != [] {
      var n := |follows| - 1;
      FollowEventsAt(channelId, channelName, follows[..n]);
    }
  }

  /** One more record of the page: the running maximum takes it into account. */
  lemma MaxFollowedAtPrefix(follows: seq<Follow>, i: nat)
    requires i < |follows|
    ensures MaxFollowedAt(follows[..i + 1]) == Some(Later(MaxFollowedAt(follows[..i]), follows[i].followedAt))
  {
    assert follows[..i + 1][..i] == follows[..i];
  }

  /** One more record of the page: it is selected iff it is after `since`. */
  lemma FreshPrefix(follows: seq<Follow>, i: nat, since: Instant)
    requires i < |follows|
    ensures Fresh(follows[..i + 1], since)
         == Fresh(follows[..i], since) + (if follows[i].followedAt > since then [follows[i]] else [])
  {
    assert follows[..i + 1][..i] == follows[..i];
  }

  /** One more selected record: one more event at the end. */
  lemma FollowEventsSnoc(channelId: string, channelName: Option<string>, follows: seq<Follow>, f: Follow)
    ensures FollowEvents(channelId, channelName, follows + [f])
         == FollowEvents(channelId, channelName, follows) + [NewFollower(channelId, channelName, f.fromId, f.fromName)]
  {
    assert (follows + [f])[..|follows|] == follows;
  }

  /**
   * The loop over the follow list: `lastFollowDate` tracks the latest `followedAt`,
   * and every record after the old watermark is published.
   */
  method ScanFollows(channelId: string, channelName: Option<string>, follows: seq<Follow>, lastFollowCheck: Instant)
    returns (lastFollowDate: Option<Instant>, events: seq<Event>)
    ensures lastFollowDate == MaxFollowedAt(follows)
    ensures events == FollowEvents(channelId, channelName, Fresh(follows, lastFollowCheck))
  {
    lastFollowDate := None;
    events := [];
    var i := 0;
    while i < |follows|
      invariant 0 <= i <= |follows|
      invariant lastFollowDate == MaxFollowedAt(follows[..i])
      invariant events == FollowEvents(channelId, channelName, Fresh(follows[..i], lastFollowCheck))
    {
      var follow := follows[i];
      MaxFollowedAtPrefix(follows, i);
      FreshPrefix(follows, i, lastFollowCheck);
      if lastFollowDate.None? || follow.followedAt > lastFollowDate.value {
        lastFollowDate := Some(follow.followedAt);
      }
      ghost var newer := Fresh(follows[..i], lastFollowCheck);
      if follow.followedAt > lastFollowCheck {
        FollowEventsSnoc(channelId, channelName, newer, follow);
        events := events + [NewFollower(channelId, channelName, follow.fromId, follow.fromName)];
        assert Fresh(follows[..i + 1], lastFollowCheck) == newer + [follow];
      } else {
        assert Fresh(follows[..i + 1], lastFollowCheck) == newer + [];
        assert newer + [] == newer;
      }
      i := i + 1;
    }
    assert follows[..i] == follows;
  }

  datatype FollowerResult = FollowerResult(
    cache: ChannelCache,
    events: seq<Event>,
    nextRequestCanBeImmediate: bool,
    backoffReset: bool)

  /**
   * The reference description of one tick. `fetched` is the follow list the request
   * returns, or `None` when the request fails; it is not consulted on the bootstrap path.
   */
  function FollowerStep(cached: ChannelCache, channelId: string, now: Instant, fetched: Option<FollowList>)
    : FollowerResult
  {
    if cached.lastFollowCheck.None? then
      FollowerResult(cached.(lastFollowCheck := Some(now)), [], true, false)
    else if fetched.None? then
      FollowerResult(cached, [], false, false)
    else
      var page := fetched.value;
      var name := if cached.userName.None? && page.follows != [] then Some(page.follows[0].toName) else cached.userName;
      var countEvents :=
        if cached.followers.Some? && page.total.Some? && page.total.value != cached.followers.value
        then [FollowCountUpdate(channelId, name, page.total.value, cached.followers.value)]
        else [];
      FollowerResult(
        cached.(userName := name, followers := page.total, lastFollowCheck := MaxFollowedAt(page.follows)),
        countEvents + FollowEvents(channelId, name, Fresh(page.follows, cached.lastFollowCheck.value)),
        false, true)
  }

  /**
   * The task body for one channel, in its own order: request only with a watermark,
   * fill the name from the first record, swap in the new total, scan the page, then
   * store either `now` (bootstrap) or the scanned maximum as the watermark.
   */
  method FollowerUpdate(cached: ChannelCache, channelId: string, now: Instant, fetched: Option<FollowList>)
    returns (next: ChannelCache, events: seq<Event>, nextRequestCanBeImmediate: bool, backoffReset: bool)
    ensures FollowerResult(next, events, nextRequestCanBeImmediate, backoffReset)
         == FollowerStep(cached, channelId, now, fetched)
  {
    next := cached;
    events := [];
    backoffReset := false;
    var lastFollowDate: Option<Instant> := None;
    nextRequestCanBeImmediate := false;
    if next.lastFollowCheck.Some? {
      if fetched.None? {
        // the request failed: the task catches the exception and returns false
        return;
      }
      var page := fetched.value;
      backoffReset := true;
      var channelName := next.userName;
      if channelName.None? && page.follows != [] {
        channelName := Some(page.follows[0].toName);
        next := next.(userName := channelName);
      }
      var oldTotal := next.followers;
      next := next.(followers := page.total);
      if oldTotal.Some? && page.total.Some? && page.total.value != oldTotal.value {
        events := [FollowCountUpdate(channelId, channelName, page.total.value, oldTotal.value)];
      }
      var followEvents;
      lastFollowDate, followEvents := ScanFollows(channelId, channelName, page.follows, next.lastFollowCheck.value);
      events := events + followEvents;
      assert next == cached.(userName := channelName, followers := page.total);
      assert FollowerStep(cached, channelId, now, fetched)
          == FollowerResult(next.(lastFollowCheck := lastFollowDate), events, false, true);
    } else {
      nextRequestCanBeImmediate := true;
    }
    if next.lastFollowCheck.None? {
      next := next.(lastFollowCheck := Some(now));
    } else {
      next := next.(lastFollowCheck := lastFollowDate);
    }
  }

  /** Bootstrap: without a watermark nothing is requested or published, the watermark becomes `now`, no delay follows. */
  lemma Bootstrap(cached: ChannelCache, channelId: string, now: Instant, fetched: Option<FollowList>)
    requires cached.lastFollowCheck.None?
    ensures var r := FollowerStep(cached, channelId, now, fetched);
      && r.events == [] && r.nextRequestCanBeImmediate && !r.backoffReset
      && r.cache == cached.(lastFollowCheck := Some(now))
      && r == FollowerStep(cached, channelId, now, None)
  {
  }

  /** A failed request leaves the record as it was, publishes nothing and asks for the delay. */
  lemma FailedRequest(cached: ChannelCache, channelId: string, now: Instant)
    requires cached.lastFollowCheck.Some?
    ensures FollowerStep(cached, channelId, now, None) == FollowerResult(cached, [], false, false)
  {
  }

  /** Count event of a steady tick: fires iff both totals are known and differ; the stored total is replaced. */
  lemma CountEventIff(cached: ChannelCache, channelId: string, now: Instant, page: FollowList)
    requires cached.lastFollowCheck.Some?
    ensures var r := FollowerStep(cached, channelId, now, Some(page));
      && r.cache.followers == page.total
      && ((exists i :: 0 <= i < |r.events| && r.events[i].FollowCountUpdate?)
          <==> cached.followers.Some? && page.total.Some? && cached.followers != page.total)
  {
    var r := FollowerStep(cached, channelId, now, Some(page));
    var name := r.cache.userName;
    var newer := Fresh(page.follows, cached.lastFollowCheck.value);
    FollowEventsAt(channelId, name, newer);
    var fe := FollowEvents(channelId, name, newer);
    if cached.followers.Some? && page.total.Some? && cached.followers != page.total {
      assert r.events[0].FollowCountUpdate?;
    } else {
      assert r.events == fe;
      forall i | 0 <= i < |r.events| ensures !r.events[i].FollowCountUpdate? {
        assert r.events[i] == fe[i];
      }
    }
  }

  /**
   * New-follower events of a steady tick: one per record followed strictly after the
   * old watermark, in list order, after the count event if there is one.
   */
  lemma NewFollowerEvents(cached: ChannelCache, channelId: string, now: Instant, page: FollowList)
    requires cached.lastFollowCheck.Some?
    ensures var r := FollowerStep(cached, channelId, now, Some(page));
      var newer := Fresh(page.follows, cached.lastFollowCheck.value);
      var k := |r.events| - |newer|;
      && (k == 0 || k == 1)
      && (k == 1 <==> cached.followers.Some? && page.total.Some? && cached.followers != page.total)
      && (k == 1 ==> r.events[0] == FollowCountUpdate(channelId, r.cache.userName, page.total.value, cached.followers.value))
      && (forall f :: f in newer <==> f in page.follows && f.followedAt > cached.lastFollowCheck.value)
      && (forall i :: 0 <= i < |newer| ==>
            r.events[k + i] == NewFollower(channelId, r.cache.userName, newer[i].fromId, newer[i].fromName))
  {
    var r := FollowerStep(cached, channelId, now, Some(page));
    var newer := Fresh(page.follows, cached.lastFollowCheck.value);
    FreshSelects(page.follows, cached.lastFollowCheck.value);
    FollowEventsAt(channelId, r.cache.userName, newer);
  }

  /** Watermark of a steady tick: the latest time on the page, null for an empty page; no delay is skipped. */
  lemma SteadyWatermark(cached: ChannelCache, channelId: string, now: Instant, page: FollowList)
    requires cached.lastFollowCheck.Some?
    ensures var r := FollowerStep(cached, channelId, now, Some(page));
      && !r.nextRequestCanBeImmediate && r.backoffReset
      && (r.cache.lastFollowCheck.None? <==> page.follows == [])
      && (r.cache.lastFollowCheck.Some? ==>
            (exists i :: 0 <= i < |page.follows| && page.follows[i].followedAt == r.cache.lastFollowCheck.value)
            && forall i :: 0 <= i < |page.follows| ==> page.follows[i].followedAt <= r.cache.lastFollowCheck.value)
  {
    MaxFollowedAtIsMaximum(page.follows);
  }

  /** An empty page clears the watermark, so the next tick bootstraps again with its own `now`. */
  lemma EmptyPageRebootstraps(cached: ChannelCache, channelId: string, now: Instant, total: Option<int>,
                              later: Instant, fetched: Option<FollowList>)
    requires cached.lastFollowCheck.Some?
    ensures var first := FollowerStep(cached, channelId, now, Some(FollowList(total, [])));
      var second := FollowerStep(first.cache, channelId, later, fetched);
      && first.cache.lastFollowCheck.None?
      && second.events == [] && second.nextRequestCanBeImmediate
      && second.cache.lastFollowCheck == Some(later)
  {
  }

  /**
   * Consequence of the cleared watermark: a channel whose page was empty, re-bootstrapped
   * at time 100, never reports a follow made at time 50 that is first seen afterwards;
   * only the count event shows it.
   */
  lemma FollowMadeBeforeRebootstrapIsNotReported()
    ensures var c0 := EmptyCache.(userName := Some("chan"), followers := Some(0), lastFollowCheck := Some(10));
      var t1 := FollowerStep(c0, "1", 20, Some(FollowList(Some(0), [])));
      var t2 := FollowerStep(t1.cache, "1", 100, None);
      var t3 := FollowerStep(t2.cache, "1", 110, Some(FollowList(Some(1), [Follow("9", "fan", "chan", 50)])));
      t3.events == [FollowCountUpdate("1", Some("chan"), 1, 0)]
  {
    var c0 := EmptyCache.(userName := Some("chan"), followers := Some(0), lastFollowCheck := Some(10));
    var f := Follow("9", "fan", "chan", 50);
    assert [f][..0] == [];
    assert Fresh([f], 100) == [];
  }

  /** The watermark is not monotonic: when the latest follower is gone, it moves back to an earlier time. */
  lemma WatermarkCanMoveBack()
    ensures var c0 := EmptyCache.(lastFollowCheck := Some(20));
      var r := FollowerStep(c0, "1", 30, Some(FollowList(Some(1), [Follow("9", "fan", "chan", 10)])));
      r.cache.lastFollowCheck == Some(10)
  {
    var f := Follow("9", "fan", "chan", 10);
    assert [f][..0] == [];
  }
}
