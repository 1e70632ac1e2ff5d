/**
 * The application state: the one query cache, the connection pool once
 * it is set up, the query service built on it, and the schema profile
 * the configuration names.
 */
module AppStateModel {
  import opened Wrappers
  import opened Errors
  import opened Cache
  import opened Services
  import opened DefaultSchema
  import ProfileRegistry

  /** `ConnectionPool`, seen through the history query it serves. */
  datatype ConnectionPool = ConnectionPool(fetch: HistorySource)

  /**
   * `get_schema_profile`: the registry's profile of the configured name,
   * or the default profile when the registry does not know the name.
   */
  function SchemaProfileFor(profileName: string): (p: DefaultProfile)
    ensures Name(p) == (if profileName in ProfileRegistry.AvailableProfiles() then profileName else "default")
    ensures ProfileRegistry.Get(profileName).Ok? ==> p == ProfileRegistry.Get(profileName).value
  {
    ProfileRegistry.GetMatchesAvailable(profileName);
    match ProfileRegistry.Get(profileName)
    case Ok(p) => p
    case Err(_) => ProfileRegistry.DefaultProfileOf()
  }

  /** `AppState`. */
  class AppState {
    /** The shared query cache. */
    const cache: QueryCache
    /** The schema profile named by the configuration. */
    const profileName: string
    /** `pool`: None until `init_pool` succeeds. */
    var pool: Option<ConnectionPool>
    /** `query_service`: None until `init_pool` succeeds. */
    var service: Option<QueryService>

    /**
     * The pool and the service are set up together, and the service
     * queries through the pool and stores into the shared cache.
     */
    ghost predicate Valid()
      reads this, cache
    {
      && cache.Inv()
      && (pool.Some? <==> service.Some?)
      && (service.Some? ==> service.value.cache == cache && service.value.source == pool.value.fetch)
    }

    /** `AppState::new`: a cache with the default settings, no pool and no service. */
    constructor (profileName: string)
      ensures Valid()
      ensures fresh(cache) && cache.config == DefaultCacheConfig() && cache.State() == CacheState([], 0, 0)
      ensures this.profileName == profileName && pool.None? && service.None?
    {
      cache := new QueryCache(DefaultCacheConfig());
      this.profileName := profileName;
      pool := None;
      service := None;
    }

    /**
     * `init_pool` (and `reinit_pool`, which calls it): `connect` is the
     * outcome of opening the pool. On success the pool and a new query
     * service over it, the shared cache and `defaultTable` are installed;
     * on failure nothing changes.
     */
    method InitPool(connect: Result<ConnectionPool>, defaultTable: string) returns (r: Result<()>)
      requires Valid()
      modifies this
      ensures Valid()
      ensures r.Ok? <==> connect.Ok?
      ensures connect.Err? ==> r.error == connect.error && pool == old(pool) && service == old(service)
      ensures connect.Ok? ==> pool == Some(connect.value) && service.Some? && fresh(service.value)
                              && service.value.source == connect.value.fetch
                              && service.value.cache == cache && service.value.defaultTable == defaultTable
    {
      if connect.Err? {
        return Err(connect.error);
      }
      var s := new QueryService(connect.value.fetch, cache, defaultTable);
      pool := Some(connect.value);
      service := Some(s);
      r := Ok(());
    }

    /** `get_schema_profile`. */
    function SchemaProfile(): (p: DefaultProfile)
      reads this
      ensures p == SchemaProfileFor(profileName)
    {
      SchemaProfileFor(profileName)
    }

    /** `is_pool_initialized`: a query service exists exactly when the pool does. */
    function IsPoolInitialized(): (b: bool)
      reads this, cache
      requires Valid()
      ensures b <==> service.Some?
    {
      pool.Some?
    }

    /**
     * `query_service()`: None before the pool is set up; otherwise a new
     * handle that queries through the service's pool, stores into the
     * shared cache and uses the service's default table, so its queries
     * follow the service's hit and miss protocol on the same cache.
     */
    method QueryServiceHandle() returns (h: Option<QueryService>)
      requires Valid()
      ensures h.None? <==> service.None?
      ensures h.Some? ==> fresh(h.value) && h.value.cache == cache
                          && h.value.source == service.value.source
                          && h.value.defaultTable == service.value.defaultTable
    {
      if service.None? {
        return None;
      }
      var s := service.value;
      var handle := new QueryService(s.source, cache, s.defaultTable);
      h := Some(handle);
    }
  }

  /**
   * Only the registry's names select a profile of their own; any other
   * configured name falls back to "default".
   */
  lemma SchemaProfileFallback(profileName: string)
    ensures Name(SchemaProfileFor(profileName)) == "default"
    ensures profileName != "default" ==> ProfileRegistry.Get(profileName).Err?
    ensures SchemaProfileFor(profileName) == ProfileRegistry.DefaultProfileOf()
  {
    ProfileRegistry.GetMatchesAvailable(profileName);
  }
}
