/** The resource cache factory: three find-or-create entry points and four
    garbage-collection sweeps, each run in one database transaction that either
    commits all of its writes or leaves the tables exactly as they were. */
module Factory {
  import opened Wrappers
  import opened Schema
  import opened Collector

  type Source = string
  type Params = string

  /** The errors the factory returns: its own not-found condition, and whatever a
      database call or a collaborator reports, passed on unchanged. */
  datatype Error = ErrResourceTypeNotFound(name: string) | DbError(code: int)

  /** A pipeline-declared resource type (`atc.ResourceType`). */
  datatype ResourceTypeConfig = ResourceTypeConfig(name: string, typeName: string, source: Source)

  datatype Pipeline = Pipeline(id: int, name: string)

  /** A declared resource type as stored for the pipeline, with its current version. */
  datatype DbResourceType = DbResourceType(config: ResourceTypeConfig, version: Version)

  /** The identity of a resource config: built on a base resource type, or on the
      cache of a custom resource type's own image. */
  datatype ConfigOrigin = BaseResourceType(name: string) | CreatedByCache(cache: ResourceCache)
  datatype ResourceConfig = ResourceConfig(origin: ConfigOrigin, source: Source)

  /** The identity of a resource cache, before it is found or created. */
  datatype ResourceCache = ResourceCache(config: ResourceConfig, version: Version, params: Params)

  /** A cache row found or created, with a use row linking it to its owner. */
  datatype UsedResourceCache = UsedResourceCache(id: int, configId: int, version: Version)

  datatype UsedResourceType = UsedResourceType(id: int)

  /** What the connection does this time: `Begin` and `Commit` may each fail. */
  datatype TxOutcomes = TxOutcomes(begin: Option<Error>, commit: Option<Error>)

  /** The collaborators the factory calls, as functions that may fail. Those that
      read the database receive the transaction's view of the tables; the
      find-or-create calls also return the tables as they are after their writes
      inside the transaction. */
  datatype Collaborators = Collaborators(
    getDBResourceTypes: (Tables, Pipeline, seq<ResourceTypeConfig>) -> Result<seq<DbResourceType>, Error>,
    constructResourceConfig: (string, Source, seq<DbResourceType>) -> Result<ResourceConfig, Error>,
    findResourceType: (Tables, ResourceTypeConfig, Pipeline) -> Result<Option<UsedResourceType>, Error>,
    findOrCreateForBuild: (Tables, ResourceCache, Build) -> Result<(UsedResourceCache, Tables), Error>,
    findOrCreateForResource: (Tables, ResourceCache, Resource) -> Result<(UsedResourceCache, Tables), Error>,
    findOrCreateForResourceType: (Tables, ResourceCache, UsedResourceType) -> Result<(UsedResourceCache, Tables), Error>)

  /** `types[i]` is the first declared resource type named `name`. */
  predicate FirstNamed(types: seq<ResourceTypeConfig>, name: string, i: int) {
    && 0 <= i < |types|
    && types[i].name == name
    && forall j :: 0 <= j < i ==> types[j].name != name
  }

  /** `ResourceTypes.Lookup`: the first declared resource type with the given name. */
  function Lookup(types: seq<ResourceTypeConfig>, name: string): (r: Option<ResourceTypeConfig>)
    ensures r.None? <==> forall i :: 0 <= i < |types| ==> types[i].name != name
    ensures r.Some? ==> exists i :: FirstNamed(types, name, i) && types[i] == r.value
  {
    if types == [] then None
    else if types[0].name == name then (assert FirstNamed(types, name, 0); Some(types[0]))
    else
      var r := Lookup(types[1..], name);
      assert forall i :: FirstNamed(types[1..], name, i) ==> FirstNamed(types, name, i + 1);
      r
  }

  /** The database behind a connection: one sequence of rows per table. */
  class Conn {
    var jobs: seq<Job>
    var builds: seq<Build>
    var resources: seq<Resource>
    var resourceTypes: seq<ResourceTypeRow>
    var resourceConfigs: seq<ResourceConfigRow>
    var resourceConfigUses: seq<ResourceConfigUse>
    var caches: seq<Cache>
    var cacheUses: seq<CacheUse>
    var imageResourceVersions: seq<ImageResourceVersion>
    var versionedResources: seq<VersionedResource>
    var nextBuildInputs: seq<NextBuildInput>

    /** The committed state of all tables. */
    function Snapshot(): Tables
      reads this
    {
      Tables(jobs, builds, resources, resourceTypes, resourceConfigs, resourceConfigUses,
             caches, cacheUses, imageResourceVersions, versionedResources, nextBuildInputs)
    }

    constructor (t: Tables)
      ensures Snapshot() == t
    {
      jobs, builds, resources, resourceTypes := t.jobs, t.builds, t.resources, t.resourceTypes;
      resourceConfigs, resourceConfigUses := t.resourceConfigs, t.resourceConfigUses;
      caches, cacheUses := t.caches, t.cacheUses;
      imageResourceVersions, versionedResources, nextBuildInputs :=
        t.imageResourceVersions, t.versionedResources, t.nextBuildInputs;
    }

    /** Commits the writes of a transaction whose view of the tables is `t`. */
    method Commit(t: Tables)
      modifies this
      ensures Snapshot() == t
    {
      jobs, builds, resources, resourceTypes := t.jobs, t.builds, t.resources, t.resourceTypes;
      resourceConfigs, resourceConfigUses := t.resourceConfigs, t.resourceConfigUses;
      caches, cacheUses := t.caches, t.cacheUses;
      imageResourceVersions, versionedResources, nextBuildInputs :=
        t.imageResourceVersions, t.versionedResources, t.nextBuildInputs;
    }
  }

  class ResourceCacheFactory {
    const conn: Conn

    constructor (conn: Conn)
      ensures this.conn == conn
    {
      this.conn := conn;
    }

    /** Finds or creates the cache for `version` of the resource config built from
        `resourceTypeName` and `source`, and links it to `build`. */
    method FindOrCreateResourceCacheForBuild(
      build: Build, resourceTypeName: string, version: Version, source: Source, params: Params,
      pipeline: Pipeline, resourceTypes: seq<ResourceTypeConfig>, tx: TxOutcomes, env: Collaborators)
      returns (r: Result<UsedResourceCache, Error>)
      modifies conn
      ensures r.Failure? ==> conn.Snapshot() == old(conn.Snapshot())
      ensures tx.begin.Some? ==> r == Failure(tx.begin.value)
      ensures tx.begin.None? ==>
        var t := old(conn.Snapshot());
        var types := env.getDBResourceTypes(t, pipeline, resourceTypes);
        if types.Failure? then r == Failure(types.error) else
        var config := env.constructResourceConfig(resourceTypeName, source, types.value);
        if config.Failure? then r == Failure(config.error) else
        var used := env.findOrCreateForBuild(t, ResourceCache(config.value, version, params), build);
        if used.Failure? then r == Failure(used.error) else
        if tx.commit.Some? then r == Failure(tx.commit.value) else
        r == Success(used.value.0) && conn.Snapshot() == used.value.1
    {
      if tx.begin.Some? {
        return Failure(tx.begin.value);
      }
      var view := conn.Snapshot();
      var types := env.getDBResourceTypes(view, pipeline, resourceTypes);
      if types.Failure? {
        return Failure(types.error);
      }
      var config := env.constructResourceConfig(resourceTypeName, source, types.value);
      if config.Failure? {
        return Failure(config.error);
      }
      var cache := ResourceCache(config.value, version, params);
      var used := env.findOrCreateForBuild(view, cache, build);
      if used.Failure? {
        return Failure(used.error);
      }
      if tx.commit.Some? {
        return Failure(tx.commit.value);
      }
      conn.Commit(used.value.1);
      return Success(used.value.0);
    }

    /** As FindOrCreateResourceCacheForBuild, with the use owned by `resource`. */
    method FindOrCreateResourceCacheForResource(
      resource: Resource, resourceTypeName: string, version: Version, source: Source, params: Params,
      pipeline: Pipeline, resourceTypes: seq<ResourceTypeConfig>, tx: TxOutcomes, env: Collaborators)
      returns (r: Result<UsedResourceCache, Error>)
      modifies conn
      ensures r.Failure? ==> conn.Snapshot() == old(conn.Snapshot())
      ensures tx.begin.Some? ==> r == Failure(tx.begin.value)
      ensures tx.begin.None? ==>
        var t := old(conn.Snapshot());
        var types := env.getDBResourceTypes(t, pipeline, resourceTypes);
        if types.Failure? then r == Failure(types.error) else
        var config := env.constructResourceConfig(resourceTypeName, source, types.value);
        if config.Failure? then r == Failure(config.error) else
        var used := env.findOrCreateForResource(t, ResourceCache(config.value, version, params), resource);
        if used.Failure? then r == Failure(used.error) else
        if tx.commit.Some? then r == Failure(tx.commit.value) else
        r == Success(used.value.0) && conn.Snapshot() == used.value.1
    {
      if tx.begin.Some? {
        return Failure(tx.begin.value);
      }
      var view := conn.Snapshot();
      var types := env.getDBResourceTypes(view, pipeline, resourceTypes);
      if types.Failure? {
        return Failure(types.error);
      }
      var config := env.constructResourceConfig(resourceTypeName, source, types.value);
      if config.Failure? {
        return Failure(config.error);
      }
      var cache := ResourceCache(config.value, version, params);
      var used := env.findOrCreateForResource(view, cache, resource);
      if used.Failure? {
        return Failure(used.error);
      }
      if tx.commit.Some? {
        return Failure(tx.commit.value);
      }
      conn.Commit(used.value.1);
      return Success(used.value.0);
    }

    /** Finds or creates the cache of a resource type's own version, linked to the
        stored resource type. The name must be declared and the stored type
        findable; otherwise the result is ErrResourceTypeNotFound and no row is
        written. An undeclared name is reported before a transaction is begun. */
    method FindOrCreateResourceCacheForResourceType(
      resourceTypeName: string, version: Version, source: Source, params: Params,
      pipeline: Pipeline, resourceTypes: seq<ResourceTypeConfig>, tx: TxOutcomes, env: Collaborators)
      returns (r: Result<UsedResourceCache, Error>)
      modifies conn
      ensures r.Failure? ==> conn.Snapshot() == old(conn.Snapshot())
      ensures Lookup(resourceTypes, resourceTypeName).None? ==>
        r == Failure(ErrResourceTypeNotFound(resourceTypeName))
      ensures Lookup(resourceTypes, resourceTypeName).Some? ==>
        var declared := Lookup(resourceTypes, resourceTypeName).value;
        var t := old(conn.Snapshot());
        if tx.begin.Some? then r == Failure(tx.begin.value) else
        var found := env.findResourceType(t, declared, pipeline);
        if found.Failure? then r == Failure(found.error) else
        if found.value.None? then r == Failure(ErrResourceTypeNotFound(resourceTypeName)) else
        var types := env.getDBResourceTypes(t, pipeline, resourceTypes);
        if types.Failure? then r == Failure(types.error) else
        var config := env.constructResourceConfig(declared.name, source, types.value);
        if config.Failure? then r == Failure(config.error) else
        var used := env.findOrCreateForResourceType(t, ResourceCache(config.value, version, params), found.value.value);
        if used.Failure? then r == Failure(used.error) else
        if tx.commit.Some? then r == Failure(tx.commit.value) else
        r == Success(used.value.0) && conn.Snapshot() == used.value.1
    {
      var declared := Lookup(resourceTypes, resourceTypeName);
      if declared.None? {
        return Failure(ErrResourceTypeNotFound(resourceTypeName));
      }
      if tx.begin.Some? {
        return Failure(tx.begin.value);
      }
      var view := conn.Snapshot();
      var found := env.findResourceType(view, declared.value, pipeline);
      if found.Failure? {
        return Failure(found.error);
      }
      if found.value.None? {
        return Failure(ErrResourceTypeNotFound(resourceTypeName));
      }
      var types := env.getDBResourceTypes(view, pipeline, resourceTypes);
      if types.Failure? {
        return Failure(types.error);
      }
      var config := env.constructResourceConfig(declared.value.name, source, types.value);
      if config.Failure? {
        return Failure(config.error);
      }
      var cache := ResourceCache(config.value, version, params);
      var used := env.findOrCreateForResourceType(view, cache, found.value.value);
      if used.Failure? {
        return Failure(used.error);
      }
      if tx.commit.Some? {
        return Failure(tx.commit.value);
      }
      conn.Commit(used.value.1);
      return Success(used.value.0);
    }

    /** Deletes the uses owned by succeeded and aborted builds and by failed builds
        that are not the latest of their job. `exec` is what the `DELETE` reports. */
    method CleanUsesForFinishedBuilds(tx: TxOutcomes, exec: Option<Error>) returns (err: Option<Error>)
      modifies conn`cacheUses
      ensures err == if tx.begin.Some? then tx.begin else if exec.Some? then exec else tx.commit
      ensures conn.Snapshot() == if err.None? then SweepFinishedBuilds(old(conn.Snapshot())) else old(conn.Snapshot())
    {
      if tx.begin.Some? {
        return tx.begin;
      }
      var pending := SweepFinishedBuilds(conn.Snapshot());
      if exec.Some? {
        return exec;
      }
      if tx.commit.Some? {
        return tx.commit;
      }
      conn.cacheUses := pending.cacheUses;
      return None;
    }

    /** Deletes the uses owned by inactive resource types. */
    method CleanUsesForInactiveResourceTypes(tx: TxOutcomes, exec: Option<Error>) returns (err: Option<Error>)
      modifies conn`cacheUses
      ensures err == if tx.begin.Some? then tx.begin else if exec.Some? then exec else tx.commit
      ensures conn.Snapshot() == if err.None? then SweepInactiveResourceTypes(old(conn.Snapshot())) else old(conn.Snapshot())
    {
      if tx.begin.Some? {
        return tx.begin;
      }
      var pending := SweepInactiveResourceTypes(conn.Snapshot());
      if exec.Some? {
        return exec;
      }
      if tx.commit.Some? {
        return tx.commit;
      }
      conn.cacheUses := pending.cacheUses;
      return None;
    }

    /** Deletes the uses owned by inactive resources. */
    method CleanUsesForInactiveResources(tx: TxOutcomes, exec: Option<Error>) returns (err: Option<Error>)
      modifies conn`cacheUses
      ensures err == if tx.begin.Some? then tx.begin else if exec.Some? then exec else tx.commit
      ensures conn.Snapshot() == if err.None? then SweepInactiveResources(old(conn.Snapshot())) else old(conn.Snapshot())
    {
      if tx.begin.Some? {
        return tx.begin;
      }
      var pending := SweepInactiveResources(conn.Snapshot());
      if exec.Some? {
        return exec;
      }
      if tx.commit.Some? {
        return tx.commit;
      }
      conn.cacheUses := pending.cacheUses;
      return None;
    }

    /** Deletes every cache outside the image-version, next-build-input and in-use
        sets. */
    method CleanUpInvalidCaches(tx: TxOutcomes, exec: Option<Error>) returns (err: Option<Error>)
      modifies conn`caches
      ensures err == if tx.begin.Some? then tx.begin else if exec.Some? then exec else tx.commit
      ensures conn.Snapshot() == if err.None? then SweepInvalidCaches(old(conn.Snapshot())) else old(conn.Snapshot())
    {
      if tx.begin.Some? {
        return tx.begin;
      }
      var pending := SweepInvalidCaches(conn.Snapshot());
      if exec.Some? {
        return exec;
      }
      if tx.commit.Some? {
        return tx.commit;
      }
      conn.caches := pending.caches;
      return None;
    }
  }
}
