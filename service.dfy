/** The user service: a read-through cache in front of the API client. Each
    getter serves a live cache entry if there is one and otherwise calls the
    client once, stores what it returned for the configured lifetime, and
    returns it. A failure from the client propagates and nothing is stored. */
module Services {
  import opened Wrappers
  import opened Models
  import opened CacheKeys
  import opened Caching

  const DefaultExpirationMinutes := 5
  const MillisecondsPerMinute := 60000

  /** A cache lifetime in milliseconds; the cache refuses anything else. */
  type Ttl = t: int | t > 0 witness 1

  /** The lifetime in minutes the constructor settles on: the configured
      value when it is positive, otherwise five minutes (also when the
      settings are absent). */
  function ExpirationMinutes(settings: Option<CacheSettings>): (minutes: int)
    ensures minutes > 0
    ensures settings.Some? && settings.value.expirationMinutes > 0 ==>
      minutes == settings.value.expirationMinutes
    ensures !(settings.Some? && settings.value.expirationMinutes > 0) ==>
      minutes == DefaultExpirationMinutes
  {
    var minutes := if settings.Some? then settings.value.expirationMinutes else DefaultExpirationMinutes;
    if minutes > 0 then minutes else DefaultExpirationMinutes
  }

  /** A call the service makes on the API client. */
  datatype Call = GetUserByIdCall(userId: int) | GetAllUsersCall

  /** The API client as the service sees it: any object behind the client
      interface, as the service's own tests mock it, so a null user or a null
      list may come back. Its answers come from two oracles indexed by the
      number of calls made before, so that a later call may answer
      differently; `calls` records every call in order. The REST client of
      the Clients module is one possible instance: it never answers null, and
      its failures come from its own taxonomy. */
  class UserSource {
    const userReply: (nat, int) -> Result<Option<User>, Failure>
    const allUsersReply: nat -> Result<Option<seq<User>>, Failure>
    var calls: seq<Call>

    constructor(userReply: (nat, int) -> Result<Option<User>, Failure>,
                allUsersReply: nat -> Result<Option<seq<User>>, Failure>)
      ensures this.userReply == userReply && this.allUsersReply == allUsersReply
      ensures calls == []
    {
      this.userReply := userReply;
      this.allUsersReply := allUsersReply;
      calls := [];
    }

    method GetUserById(userId: int) returns (r: Result<Option<User>, Failure>)
      modifies this
      ensures calls == old(calls) + [GetUserByIdCall(userId)]
      ensures r == userReply(|old(calls)|, userId)
    {
      r := userReply(|calls|, userId);
      calls := calls + [GetUserByIdCall(userId)];
    }

    method GetAllUsers() returns (r: Result<Option<seq<User>>, Failure>)
      modifies this
      ensures calls == old(calls) + [GetAllUsersCall]
      ensures r == allUsersReply(|old(calls)|)
    {
      r := allUsersReply(|calls|);
      calls := calls + [GetAllUsersCall];
    }
  }

  class ExternalUserService {
    const client: UserSource
    const cache: MemoryCache
    const expiration: Ttl

    /** The cache is shared: other code may hold it and write to it. */
    constructor(client: UserSource, cache: MemoryCache, settings: Option<CacheSettings>)
      ensures this.client == client && this.cache == cache
      ensures expiration == ExpirationMinutes(settings) * MillisecondsPerMinute
    {
      this.client := client;
      this.cache := cache;
      expiration := ExpirationMinutes(settings) * MillisecondsPerMinute;
    }

    /** One user, read through the cache. The lookup happens at `now`; the
        client answers later, and the entry is written at `setAt`. */
    method GetUserById(userId: int, now: int, setAt: int) returns (r: Result<Option<User>, Failure>)
      requires now <= setAt
      modifies client, cache
      // a hit is served as stored (a stored null as a null user), without calling the client or changing the cache
      ensures old(cache.TryGetUser(UserKey(userId), now)).Some? ==>
        && r == Success(old(cache.TryGetUser(UserKey(userId), now)).value)
        && client.calls == old(client.calls)
        && cache.entries == old(cache.entries)
      // a miss calls the client exactly once and returns its answer
      ensures old(cache.TryGetUser(UserKey(userId), now)).None? ==>
        && client.calls == old(client.calls) + [GetUserByIdCall(userId)]
        && r == client.userReply(|old(client.calls)|, userId)
      // what the client returned, null included, is stored for the configured lifetime from the write
      ensures old(cache.TryGetUser(UserKey(userId), now)).None? && r.Success? ==>
        cache.entries == old(cache.entries)[UserKey(userId) := CacheEntry(UserToCache(r.value), setAt + expiration)]
      // a failure leaves the cache as it was
      ensures r.Failure? ==> cache.entries == old(cache.entries)
      // no other entry changes, the whole-list entry in particular
      ensures cache.entries - {UserKey(userId)} == old(cache.entries) - {UserKey(userId)}
      ensures AllUsersKey in cache.entries <==> AllUsersKey in old(cache.entries)
      ensures AllUsersKey in cache.entries ==> cache.entries[AllUsersKey] == old(cache.entries[AllUsersKey])
    {
      var key := UserKey(userId);
      UserKeyIsNotAllUsersKey(userId);
      var cached := cache.TryGetUser(key, now);
      if cached.Some? {
        return Success(cached.value);
      }
      r := client.GetUserById(userId);
      if r.Success? {
        cache.Set(key, UserToCache(r.value), setAt, expiration);
      }
    }

    /** The whole list, read through the cache. The lookup happens at `now`;
        the client's drain finishes later, and the entry is written at `setAt`. */
    method GetAllUsers(now: int, setAt: int) returns (r: Result<Option<seq<User>>, Failure>)
      requires now <= setAt
      modifies client, cache
      // a hit is served as stored (a stored null as a null list)
      ensures old(cache.TryGetUserList(AllUsersKey, now)).Some? ==>
        && r == Success(old(cache.TryGetUserList(AllUsersKey, now)).value)
        && client.calls == old(client.calls)
        && cache.entries == old(cache.entries)
      ensures old(cache.TryGetUserList(AllUsersKey, now)).None? ==>
        && client.calls == old(client.calls) + [GetAllUsersCall]
        && r == client.allUsersReply(|old(client.calls)|)
      // the list is stored exactly as the client returned it, an empty or null one included
      ensures old(cache.TryGetUserList(AllUsersKey, now)).None? && r.Success? ==>
        cache.entries == old(cache.entries)[AllUsersKey := CacheEntry(UserListToCache(r.value), setAt + expiration)]
      ensures r.Failure? ==> cache.entries == old(cache.entries)
      // no single-user entry changes
      ensures cache.entries - {AllUsersKey} == old(cache.entries) - {AllUsersKey}
    {
      var cached := cache.TryGetUserList(AllUsersKey, now);
      if cached.Some? {
        return Success(cached.value);
      }
      r := client.GetAllUsers();
      if r.Success? {
        cache.Set(AllUsersKey, UserListToCache(r.value), setAt, expiration);
      }
    }
  }

  /** Two requests for the same user when the first one misses: the first
      looks up at `t1` and writes at `w1`, the second looks up at `t2` and
      writes at `w2`. Before the first entry's lifetime has run out, counted
      from its write, the second is served from the cache and the client is
      called once in all; from then on, or when the first call failed, the
      client is called again. */
  method RequestUserTwice(service: ExternalUserService, userId: int, t1: int, w1: int, t2: int, w2: int)
    returns (first: Result<Option<User>, Failure>, second: Result<Option<User>, Failure>)
    requires t1 <= w1 <= t2 <= w2
    requires service.cache.TryGetUser(UserKey(userId), t1).None?
    modifies service.client, service.cache
    ensures first.Success? && t2 < w1 + service.expiration ==>
      second == first && |service.client.calls| == |old(service.client.calls)| + 1
    ensures first.Success? && w1 + service.expiration <= t2 ==>
      |service.client.calls| == |old(service.client.calls)| + 2
    ensures first.Failure? ==>
      |service.client.calls| == |old(service.client.calls)| + 2
  {
    first := service.GetUserById(userId, t1, w1);
    second := service.GetUserById(userId, t2, w2);
  }
}
