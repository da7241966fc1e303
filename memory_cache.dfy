/** The in-memory cache the user service writes to: string keys, each
    mapped to a value and an absolute expiry time. Time is an integer count
    of milliseconds supplied by the caller. */
module Caching {
  import opened Wrappers
  import opened Models

  /** What an entry holds: a null, which carries no type, one user, or a
      list of users. */
  datatype CacheValue = NullValue | UserValue(user: User) | UserListValue(users: seq<User>)

  /** How a possibly-null user is stored. */
  function UserToCache(user: Option<User>): CacheValue
  {
    if user.Some? then UserValue(user.value) else NullValue
  }

  /** How a possibly-null list is stored. */
  function UserListToCache(users: Option<seq<User>>): CacheValue
  {
    if users.Some? then UserListValue(users.value) else NullValue
  }

  datatype CacheEntry = CacheEntry(value: CacheValue, expiresAt: int)

  /** An entry is served until the clock reaches its absolute expiry. */
  predicate IsLive(entry: CacheEntry, now: int)
  {
    now < entry.expiresAt
  }

  /** The value a lookup at time `now` sees under `key`, if any. */
  function Lookup(entries: map<string, CacheEntry>, key: string, now: int): Option<CacheValue>
  {
    if key in entries && IsLive(entries[key], now) then Some(entries[key].value) else None
  }

  /** An entry written at `now` with lifetime `ttl` is served exactly
      before `now + ttl`; with a positive lifetime it is served at `now`. */
  lemma WrittenEntryLivesForTtl(entries: map<string, CacheEntry>, key: string, value: CacheValue, now: int, ttl: int, t: int)
    ensures Lookup(entries[key := CacheEntry(value, now + ttl)], key, t) ==
      if t < now + ttl then Some(value) else None
    ensures ttl > 0 ==> Lookup(entries[key := CacheEntry(value, now + ttl)], key, now) == Some(value)
  {
  }

  /** Writing one key leaves what every other key shows unchanged. */
  lemma WriteLeavesOtherKeys(entries: map<string, CacheEntry>, key: string, entry: CacheEntry, other: string, t: int)
    requires other != key
    ensures Lookup(entries[key := entry], other, t) == Lookup(entries, other, t)
  {
  }

  class MemoryCache {
    var entries: map<string, CacheEntry>

    constructor()
      ensures entries == map[]
    {
      entries := map[];
    }

    /** TryGetValue with a User result: a hit needs a live entry that holds
        a user or a null, and a null comes back as a null user. */
    function TryGetUser(key: string, now: int): (r: Option<Option<User>>)
      reads this
      ensures r.Some? <==> Lookup(entries, key, now).Some? && !entries[key].value.UserListValue?
      ensures r.Some? ==> UserToCache(r.value) == entries[key].value
    {
      match Lookup(entries, key, now)
      case Some(UserValue(user)) => Some(Some(user))
      case Some(NullValue) => Some(None)
      case _ => None
    }

    /** TryGetValue with a list result: a hit needs a live entry that holds
        a list or a null, and a null comes back as a null list. */
    function TryGetUserList(key: string, now: int): (r: Option<Option<seq<User>>>)
      reads this
      ensures r.Some? <==> Lookup(entries, key, now).Some? && !entries[key].value.UserValue?
      ensures r.Some? ==> UserListToCache(r.value) == entries[key].value
    {
      match Lookup(entries, key, now)
      case Some(UserListValue(users)) => Some(Some(users))
      case Some(NullValue) => Some(None)
      case _ => None
    }

    /** Set with a lifetime relative to now, replacing any earlier entry. A
        lifetime that is not positive is refused by the cache. */
    method Set(key: string, value: CacheValue, now: int, ttl: int)
      requires ttl > 0
      modifies this
      ensures entries == old(entries)[key := CacheEntry(value, now + ttl)]
    {
      entries := entries[key := CacheEntry(value, now + ttl)];
    }
  }
}
