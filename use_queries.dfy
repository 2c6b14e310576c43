/** The query and mutation hooks: what each query function returns, its
    derived flags, and how each mutation marks cached queries stale. The
    query cache is a map from query key to a stale flag; the backend is
    a log of the mutations that reached it, its replies are parameters. */
module Queries {
  import opened Types

  /** The backend client is either bound or still missing. */
  datatype Actor = NoActor | Ready

  const ActorNotAvailable := "Actor not available"

  /** The four query keys of the front end. */
  datatype CacheKey = CurrentUserProfile | AllUsers | AllSantri | VerifySantriAccess

  /** The four writes, with their arguments. */
  datatype Mutation =
    | SaveCallerUserProfile(profile: Profile)
    | AddUser(principal: Principal, newProfile: Profile)
    | EditUser(target: Principal, updated: Profile)
    | DeleteUser(deleted: Principal)

  /** The keys each mutation's `onSuccess` invalidates. */
  function InvalidatedBy(m: Mutation): (keys: set<CacheKey>)
    ensures m.SaveCallerUserProfile? <==> keys == {CurrentUserProfile}
    ensures !m.SaveCallerUserProfile? <==> keys == {AllUsers, AllSantri}
  {
    match m
    case SaveCallerUserProfile(_) => {CurrentUserProfile}
    case _ => {AllUsers, AllSantri}
  }

  /** `invalidateQueries` for a set of keys: every cached query under one of
      them becomes stale; nothing is added, nothing else changes. */
  function Invalidate(cache: map<CacheKey, bool>, keys: set<CacheKey>): (r: map<CacheKey, bool>)
    ensures r.Keys == cache.Keys
    ensures forall k :: k in cache && k in keys ==> r[k]
    ensures forall k :: k in cache && k !in keys ==> r[k] == cache[k]
  {
    map k | k in cache :: if k in keys then true else cache[k]
  }

  /** A successful directory write leaves the profile and access queries as they were. */
  lemma DirectoryWriteKeepsOwnEntries(cache: map<CacheKey, bool>, m: Mutation)
    requires !m.SaveCallerUserProfile?
    ensures var r := Invalidate(cache, InvalidatedBy(m));
      && (CurrentUserProfile in cache ==> r[CurrentUserProfile] == cache[CurrentUserProfile])
      && (VerifySantriAccess in cache ==> r[VerifySantriAccess] == cache[VerifySantriAccess])
      && (AllUsers in cache ==> r[AllUsers]) && (AllSantri in cache ==> r[AllSantri])
  {
  }

  /** A successful profile save marks only the caller's profile stale. */
  lemma ProfileSaveTouchesOnlyProfile(cache: map<CacheKey, bool>, p: Profile)
    ensures var r := Invalidate(cache, InvalidatedBy(SaveCallerUserProfile(p)));
      && (CurrentUserProfile in cache ==> r[CurrentUserProfile])
      && r == cache[CurrentUserProfile := true] - (if CurrentUserProfile in cache then {} else {CurrentUserProfile})
  {
    var r := Invalidate(cache, InvalidatedBy(SaveCallerUserProfile(p)));
    var expected := cache[CurrentUserProfile := true] - (if CurrentUserProfile in cache then {} else {CurrentUserProfile});
    assert r.Keys == expected.Keys;
  }

  /** Invalidation is idempotent: a second identical success changes nothing more. */
  lemma InvalidateIdempotent(cache: map<CacheKey, bool>, keys: set<CacheKey>)
    ensures Invalidate(Invalidate(cache, keys), keys) == Invalidate(cache, keys)
  {
  }

  /** The shared query client: the query cache and the calls the backend received. */
  class QueryClient {
    var cache: map<CacheKey, bool>
    var calls: seq<Mutation>

    constructor ()
      ensures cache == map[] && calls == []
    {
      cache := map[];
      calls := [];
    }

    /** A query under `key` has fetched: its entry is cached and fresh. */
    method Fetched(key: CacheKey)
      modifies this
      ensures cache == old(cache)[key := false] && calls == old(calls)
    {
      cache := cache[key := false];
    }

    /** `mutateAsync(m)`: without an actor it fails with "Actor not available"
        and the backend is not called; otherwise the backend answers `reply`,
        and only a success runs `onSuccess`, which invalidates. */
    method Mutate(m: Mutation, actor: Actor, reply: Result<()>) returns (r: Result<()>)
      modifies this
      ensures actor == NoActor ==> r == Err(ActorNotAvailable) && calls == old(calls)
      ensures actor == Ready ==> r == reply && calls == old(calls) + [m]
      ensures cache == if r.Ok? then Invalidate(old(cache), InvalidatedBy(m)) else old(cache)
    {
      if actor == NoActor {
        r := Err(ActorNotAvailable);
        return;
      }
      calls := calls + [m];
      r := reply;
      if r.Ok? {
        cache := Invalidate(cache, InvalidatedBy(m));
      }
    }

    /** `queryClient.clear()`: every cached query is dropped. */
    method Clear()
      modifies this
      ensures cache == map[] && calls == old(calls)
    {
      cache := map[];
    }
  }

  /** The options a query is registered with. */
  datatype QueryOptions = QueryOptions(key: CacheKey, enabled: bool, retry: bool)

  /** A query runs only once an actor exists and is no longer being fetched;
      the caller's profile query is never retried, the others keep the
      library's default of retrying. */
  function Options(key: CacheKey, actor: Actor, actorFetching: bool): (o: QueryOptions)
    ensures o.key == key
    ensures o.enabled <==> actor == Ready && !actorFetching
    ensures o.retry <==> key != CurrentUserProfile
  {
    QueryOptions(key, actor == Ready && !actorFetching, key != CurrentUserProfile)
  }

  /** React Query's own flags for the profile query. */
  datatype QueryFlags = QueryFlags(isLoading: bool, isFetched: bool)

  /** The flags `useGetCallerUserProfile` reports: loading while the actor is
      fetched, and never fetched without an actor. */
  function ProfileHookFlags(actor: Actor, actorFetching: bool, q: QueryFlags): (r: QueryFlags)
    ensures actorFetching || q.isLoading <==> r.isLoading
    ensures r.isFetched <==> actor == Ready && q.isFetched
  {
    QueryFlags(actorFetching || q.isLoading, actor == Ready && q.isFetched)
  }

  /** The profile query function: it fails without an actor. */
  function CallerProfileQuery(actor: Actor, reply: Result<Option<Profile>>): (r: Result<Option<Profile>>)
    ensures actor == NoActor ==> r == Err(ActorNotAvailable)
    ensures actor == Ready ==> r == reply
  {
    if actor == NoActor then Err(ActorNotAvailable) else reply
  }

  /** `dapatkanSemuaUser` / `dapatkanSemuaSantri` through their query
      functions: an empty list instead of a failure without an actor. */
  function DirectoryQuery(actor: Actor, reply: Result<seq<Entry>>): (r: Result<seq<Entry>>)
    ensures actor == NoActor ==> r == Ok([])
    ensures actor == Ready ==> r == reply
  {
    if actor == NoActor then Ok([]) else reply
  }

  /** The access-check query function: `false` instead of a failure without an actor. */
  function VerifyAccessQuery(actor: Actor, reply: Result<bool>): (r: Result<bool>)
    ensures actor == NoActor ==> r == Ok(false)
    ensures actor == Ready ==> r == reply
  {
    if actor == NoActor then Ok(false) else reply
  }

  /** Without an actor no query function depends on what the backend would
      answer: no backend call is made. */
  lemma NoActorIgnoresBackend(p1: Result<Option<Profile>>, p2: Result<Option<Profile>>,
                              d1: Result<seq<Entry>>, d2: Result<seq<Entry>>,
                              v1: Result<bool>, v2: Result<bool>)
    ensures CallerProfileQuery(NoActor, p1) == CallerProfileQuery(NoActor, p2)
    ensures DirectoryQuery(NoActor, d1) == DirectoryQuery(NoActor, d2)
    ensures VerifyAccessQuery(NoActor, v1) == VerifyAccessQuery(NoActor, v2)
    ensures CallerProfileQuery(NoActor, p1).Err? && DirectoryQuery(NoActor, d1).Ok? && VerifyAccessQuery(NoActor, v1).Ok?
  {
  }
}
