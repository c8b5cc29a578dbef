/**
 * Watch sets: which channel ids a listener kind tracks, and what enabling or
 * disabling an id does to that set and to the channel cache both kinds share.
 */
module Watch {
  import opened Domain

  /** One listener kind's watch set together with the shared channel cache. */
  datatype Watched = Watched(watch: set<string>, cache: map<string, ChannelCache>)

  /** Enable by id and name: add the id; only a newly added id gets a cache entry, and only when it has none. */
  function EnableId(w: Watched, channelId: string, channelName: string): Watched
  {
    if channelId in w.watch then w
    else Watched(w.watch + {channelId},
                 if channelId in w.cache then w.cache else w.cache[channelId := NamedCache(channelName)])
  }

  /** Disable by id: remove the id and always invalidate its shared cache entry. */
  function DisableId(w: Watched, channelId: string): Watched
  {
    Watched(w.watch - {channelId}, w.cache - {channelId})
  }

  /** The ids of a user lookup result. */
  function UserIds(users: seq<User>): set<string>
  {
    set u | u in users :: u.id
  }

  /** Enabling every user of a lookup result, in order. */
  function EnableAll(w: Watched, users: seq<User>): Watched
    decreases |users|
  {
    if users == [] then w else EnableAll(EnableId(w, users[0].id, users[0].login), users[1..])
  }

  /** Disabling every user of a lookup result, in order. */
  function DisableAll(w: Watched, users: seq<User>): Watched
    decreases |users|
  {
    if users == [] then w else DisableAll(DisableId(w, users[0].id), users[1..])
  }

  /** Enabling an id twice is enabling it once, whatever name the second call carries. */
  lemma EnableIdIdempotent(w: Watched, channelId: string, name: string, otherName: string)
    ensures EnableId(EnableId(w, channelId, name), channelId, otherName) == EnableId(w, channelId, name)
  {
  }

  /** Disabling an id twice is disabling it once. */
  lemma DisableIdIdempotent(w: Watched, channelId: string)
    ensures DisableId(DisableId(w, channelId), channelId) == DisableId(w, channelId)
  {
  }

  /**
   * Disabling drops whatever was cached for the id, so re-enabling it starts from a
   * record that knows only the name.
   */
  lemma ReenableForgetsState(w: Watched, channelId: string, name: string)
    ensures var r := EnableId(DisableId(w, channelId), channelId, name);
      channelId in r.watch && channelId in r.cache && r.cache[channelId] == NamedCache(name)
  {
  }

  /**
   * Enabling a lookup result adds all its ids, never replaces an existing cache entry,
   * and creates entries only for ids that were not watched before.
   */
  lemma {:induction false} EnableAllEffect(w: Watched, users: seq<User>)
    ensures var r := EnableAll(w, users);
      && r.watch == w.watch + UserIds(users)
      && (forall id :: id in w.cache ==> id in r.cache && r.cache[id] == w.cache[id])
      && (forall id :: id in r.cache ==> id in w.cache || (id in UserIds(users) && id !in w.watch))
    decreases |users|
  {
    if users != [] {
      var first := EnableId(w, users[0].id, users[0].login);
      EnableAllEffect(first, users[1..]);
      assert users == [users[0]] + users[1..];
      assert UserIds(users) == {users[0].id} + UserIds(users[1..]);
    }
  }

  /** Disabling a lookup result removes all its ids from the set and from the cache. */
  lemma {:induction false} DisableAllEffect(w: Watched, users: seq<User>)
    ensures DisableAll(w, users) == Watched(w.watch - UserIds(users), w.cache - UserIds(users))
    decreases |users|
  {
    if users != [] {
      DisableAllEffect(DisableId(w, users[0].id), users[1..]);
      assert users == [users[0]] + users[1..];
      assert UserIds(users) == {users[0].id} + UserIds(users[1..]);
    }
  }
}
