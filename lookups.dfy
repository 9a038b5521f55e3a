/** The two repositories that keep a lookup cache on the instance: `UserRepo` (users by
    username) and `DebtStatusesRepo` (debt statuses by short name). Both are built once and
    shared by every processor and every import, so a cached entry, negative ones included,
    lives as long as the process. */
module Lookups {
  import opened Wrappers
  import opened Db
  import opened Helpers

  /** `UserRepo`. `queries` records every username a query was sent for. */
  class UserRepo {
    const users: Table<string, int>
    var cache: map<string, Option<int>>
    ghost var queries: seq<string>

    constructor (users: Table<string, int>)
      ensures this.users == users && cache == map[] && queries == []
    {
      this.users := users;
      cache := map[];
      queries := [];
    }

    /** `GetUserBigint`. */
    method GetUserBigint(username: string) returns (v: Option<int>, err: Option<string>)
      modifies this
      ensures var c := CachedLookup(old(cache), username, Query(users, username));
        v == c.value && err == c.err && cache == c.cache
        && queries == old(queries) + (if c.queried then [username] else [])
    {
      if username in cache {
        return cache[username], None;
      }
      queries := queries + [username];
      var answer := Query(users, username);
      if answer.Err? {
        cache := cache[username := None];
        return None, Some(answer.error);
      }
      cache := cache[username := Some(answer.value)];
      v, err := Some(answer.value), None;
    }
  }

  /** What `GetStatusBigint` does: return, or panic on a write to a nil map. */
  datatype StatusAnswer = Panic | Answer(value: Option<int>, err: Option<string>)

  /** `GetStatusBigint` over a cache that may be a nil map (`None`): reading a nil map only
      misses, and writing to it panics. Gives the answer and the cache afterwards. */
  function StatusLookup(cache: Option<map<string, Option<int>>>, key: string, answer: Result<int>)
    : (StatusAnswer, Option<map<string, Option<int>>>)
  {
    match cache
    case None => (Panic, None)
    case Some(c) =>
      var r := CachedLookup(c, key, answer);
      (Answer(r.value, r.err), Some(r.cache))
  }

  /** As written, a repository from `NewDebtStatusesRepo` panics on its first lookup,
      whatever the key and whatever the database answers. */
  lemma UnallocatedCachePanics(key: string, answer: Result<int>)
    ensures StatusLookup(None, key, answer).0 == Panic
  {
  }

  /** With an allocated cache the lookup never panics and caches like every other lookup:
      a hit answers without a query, and a failed query leaves a negative entry. */
  lemma AllocatedCacheCaches(c: map<string, Option<int>>, key: string, answer: Result<int>, later: Result<int>)
    ensures StatusLookup(Some(c), key, answer).0 != Panic
    ensures StatusLookup(Some(c), key, answer).1.Some?
    ensures key !in c && answer.Err? ==>
      StatusLookup(StatusLookup(Some(c), key, answer).1, key, later).0 == Answer(None, None)
    ensures key !in c && answer.Ok? ==>
      StatusLookup(Some(c), key, answer).0 == Answer(Some(answer.value), None)
      && StatusLookup(StatusLookup(Some(c), key, answer).1, key, later).0 == Answer(Some(answer.value), None)
  {
  }

  /** `DebtStatusesRepo`: `cache` is `None` while the map is unallocated. */
  class DebtStatusesRepo {
    const statuses: Table<string, int>
    var cache: Option<map<string, Option<int>>>
    ghost var queries: seq<string>

    /** `NewDebtStatusesRepo` as written: the cache map is never made. */
    constructor AsWritten(statuses: Table<string, int>)
      ensures this.statuses == statuses && cache.None? && queries == []
    {
      this.statuses := statuses;
      cache := None;
      queries := [];
    }

    /** The constructor with the cache allocated, as the other repositories do it. */
    constructor (statuses: Table<string, int>)
      ensures this.statuses == statuses && cache == Some(map[]) && queries == []
    {
      this.statuses := statuses;
      cache := Some(map[]);
      queries := [];
    }

    /** `GetStatusBigint`: a miss that reaches the write on an unallocated map panics. */
    method GetStatusBigint(shortname: string) returns (r: StatusAnswer)
      modifies this
      ensures var s := StatusLookup(old(cache), shortname, Query(statuses, shortname));
        r == s.0 && cache == s.1
      ensures queries == old(queries) +
        (if old(cache).None? || shortname !in old(cache).value then [shortname] else [])
    {
      if cache.Some? && shortname in cache.value {
        return Answer(cache.value[shortname], None);
      }
      queries := queries + [shortname];
      var answer := Query(statuses, shortname);
      if cache.None? {
        return Panic;
      }
      if answer.Err? {
        cache := Some(cache.value[shortname := None]);
        return Answer(None, Some(answer.error));
      }
      cache := Some(cache.value[shortname := Some(answer.value)]);
      r := Answer(Some(answer.value), None);
    }
  }

  /** An optional reference (user or status): the id, the warning, the cache afterwards and
      the keys a query was sent for. */
  datatype Ref = Ref(id: Option<int>, warnings: seq<string>, cache: map<string, Option<int>>, queries: seq<string>)

  /** The lookup of an optional reference named `noun`, stored in `column`, by the trimmed
      cell `key`: blank is a warning with no lookup; a key that does not resolve, for
      whatever reason, is a warning naming the key. */
  function Resolve(t: Table<string, int>, cache: map<string, Option<int>>, noun: string, column: string, key: string): Ref {
    if key == "" then Ref(None, [Missing(noun, column)], cache, [])
    else
      var c := CachedLookup(cache, key, Query(t, key));
      Ref(c.value, if c.value.None? then [NotFound(noun, key, column)] else [], c.cache, if c.queried then [key] else [])
  }

  function Missing(noun: string, column: string): string {
    "missing " + noun + " -> " + column + "=NULL"
  }

  function NotFound(noun: string, key: string, column: string): string {
    noun + " not found: " + key + " -> " + column + "=NULL"
  }

  /** The two "missing" warnings, spelled out. */
  lemma MissingTexts()
    ensures Missing("username", "user_id") == "missing username -> user_id=NULL"
    ensures Missing("status", "debt_status_id") == "missing status -> debt_status_id=NULL"
  {
  }

  /** The user by the trimmed username cell, as the processors with an optional user look it up. */
  function UserRef(t: Table<string, int>, cache: map<string, Option<int>>, username: string): Ref {
    Resolve(t, cache, "username", "user_id", username)
  }

  /** The debt status by the trimmed status cell. */
  function StatusRef(t: Table<string, int>, cache: map<string, Option<int>>, status: string): Ref {
    Resolve(t, cache, "status", "debt_status_id", status)
  }

  /** An optional reference: blank gives the "missing" warning with no lookup; otherwise the
      id is the cached or queried one, and there is a "not found" warning naming the key
      exactly when there is no id; a key is queried only when it is not cached. */
  lemma ResolveFacts(t: Table<string, int>, cache: map<string, Option<int>>, noun: string, column: string, key: string)
    ensures var r := Resolve(t, cache, noun, column, key);
      (key == "" ==> r == Ref(None, [Missing(noun, column)], cache, []))
      && (key != "" ==>
            (r.id.Some? <==> r.warnings == [])
            && (r.id.None? ==> r.warnings == [NotFound(noun, key, column)])
            && (key in cache ==> r.id == cache[key] && r.cache == cache && r.queries == [])
            && (key !in cache ==>
                  (r.queries == [key] && key in r.cache && r.cache[key] == r.id
                   && (r.id.Some? <==> key !in t.faults && key in t.rows)
                   && (r.id.Some? ==> r.id.value == t.rows[key]))))
  {
  }
}
