/**
 * Values shared by the stream-status and follower listeners of TwitchClientHelper:
 * the cached per-channel record, the Helix response records the listeners consume,
 * and the events they publish.
 */
module Domain {

  /** Java's nullable references: `None` stands for `null`. */
  datatype Option<+T> = None | Some(value: T)

  /** A point in time (`java.time.Instant`), compared with `isAfter` as `>`. */
  type Instant = int

  /**
   * The record the helper keeps per channel id (`ChannelCache`). Every field is
   * nullable; `followers` is the value held by its `AtomicReference<Integer>`.
   */
  datatype ChannelCache = ChannelCache(
    userName: Option<string>,
    isLive: Option<bool>,
    title: Option<string>,
    gameId: Option<string>,
    followers: Option<int>,
    lastFollowCheck: Option<Instant>)

  /** `new ChannelCache()`: nothing known yet. */
  const EmptyCache: ChannelCache := ChannelCache(None, None, None, None, None, None)

  /** `new ChannelCache(channelName)`: only the user name is known. */
  function NamedCache(name: string): (c: ChannelCache)
    ensures c.userName == Some(name) && c.isLive.None? && c.lastFollowCheck.None?
    ensures c.title.None? && c.gameId.None? && c.followers.None?
  {
    EmptyCache.(userName := Some(name))
  }

  /**
   * A record whose live state is unknown knows no title or game either: every record the
   * helper creates starts that way, and the first stream-status step sets the live state.
   */
  predicate BlankWhileUnknown(c: ChannelCache)
  {
    c.isLive.None? ==> c.title.None? && c.gameId.None?
  }

  /** `channelInformation.get(id, s -> new ChannelCache())` without the insertion. */
  function CacheOrEmpty(cache: map<string, ChannelCache>, id: string): ChannelCache
  {
    if id in cache then cache[id] else EmptyCache
  }

  /** One entry of a Helix stream list. */
  datatype Stream = Stream(userId: string, userName: string, streamType: string, title: string, gameId: string)

  /** One entry of a Helix follow list: `fromId` follows the channel called `toName`. */
  datatype Follow = Follow(fromId: string, fromName: string, toName: string, followedAt: Instant)

  /** A Helix follow list: the (nullable) total and the most recent follows. */
  datatype FollowList = FollowList(total: Option<int>, follows: seq<Follow>)

  /** One entry of a Helix user list. */
  datatype User = User(id: string, login: string)

  /**
   * The events the helper publishes. Each transition publishes two event objects
   * (one per event class hierarchy); both carry the same information and are one
   * event here.
   */
  datatype Event =
    | GoLive(channelId: string, channelName: Option<string>, title: Option<string>, gameId: Option<string>)
    | GoOffline(channelId: string, channelName: Option<string>)
    | TitleChanged(channelId: string, channelName: Option<string>, title: Option<string>)
    | GameChanged(channelId: string, channelName: Option<string>, gameId: Option<string>)
    | FollowCountUpdate(channelId: string, channelName: Option<string>, followCount: int, previousCount: int)
    | NewFollower(channelId: string, channelName: Option<string>, followerId: string, followerName: string)

  /** `Character.toUpperCase`, restricted to the ASCII letters. */
  function ToUpper(c: char): char
  {
    if 'a' <= c <= 'z' then (c as int - 'a' as int + 'A' as int) as char else c
  }

  /** `Character.toLowerCase`, restricted to the ASCII letters. */
  function ToLower(c: char): char
  {
    if 'A' <= c <= 'Z' then (c as int - 'A' as int + 'a' as int) as char else c
  }

  /** The per-character test of `String.regionMatches(true, ...)`. */
  predicate CharEqualsIgnoreCase(a: char, b: char)
  {
    a == b || ToUpper(a) == ToUpper(b) || ToLower(ToUpper(a)) == ToLower(ToUpper(b))
  }

  /** `String.equalsIgnoreCase` on two non-null strings. */
  predicate EqualsIgnoreCase(a: string, b: string)
  {
    |a| == |b| && forall i :: 0 <= i < |a| ==> CharEqualsIgnoreCase(a[i], b[i])
  }

  /** Equal strings are equal ignoring case, and the relation is symmetric. */
  lemma EqualsIgnoreCaseIsReflexiveAndSymmetric(a: string, b: string)
    ensures EqualsIgnoreCase(a, a)
    ensures EqualsIgnoreCase(a, b) <==> EqualsIgnoreCase(b, a)
  {
  }

  /**
   * Ignoring case, "live" matches exactly the four-character strings whose letters fold
   * to "live", and no string of another length.
   */
  lemma LiveSpellings(s: string)
    ensures |s| != 4 ==> !EqualsIgnoreCase(s, "live")
    ensures EqualsIgnoreCase(s, "live") ==> |s| == 4 && forall i :: 0 <= i < 4 ==> ToLower(s[i]) == "live"[i]
    ensures |s| == 4 && (forall i :: 0 <= i < 4 ==> ToLower(s[i]) == "live"[i]) ==> EqualsIgnoreCase(s, "live")
  {
    if |s| == 4 && (forall i :: 0 <= i < 4 ==> ToLower(s[i]) == "live"[i]) {
      forall i | 0 <= i < 4
        ensures CharEqualsIgnoreCase(s[i], "live"[i])
      {
        assert ToLower(s[i]) == "live"[i];
      }
    }
  }
}
