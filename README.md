# Resource cache factory: bookkeeping and garbage collection

This project models the resource-cache factory of a continuous-integration
orchestrator (`dbng/resource_cache_factory.go`). The factory memoises fetched
resource versions as *resource caches* and records which build, resource or
resource type *uses* each cache. It has two kinds of operations:

- Three find-or-create entry points, one per kind of owner. Each runs in one
  transaction: look up the pipeline's resource types, build the resource
  config, find or create the cache and its use row, and commit. A deferred
  rollback undoes everything on any early error return.
- Four garbage-collection sweeps. Each is a single `DELETE` in its own
  transaction. Three of them prune `resource_cache_uses`. The fourth deletes
  every `resource_caches` row outside three protected id sets.

Modules:

- `Wrappers`: `Option` and `Result`.
- `Schema`: one datatype per table row, the `Tables` record (one sequence per
  table), and the primary-key predicates `UniqueBuildIds` and `UniqueCacheIds`.
- `Seqs`: `Filter`, the rows a `DELETE ... WHERE` leaves behind, in order.
- `Collector`: the sub-queries as pure set-valued functions
  (`LatestBuildIds`, `FinishedBuildIds`, `InactiveResourceTypeIds`,
  `InactiveResourceIds`, `ImageVersionCacheIds`, `NextBuildInputCacheIds`,
  `InUseCacheIds`, `ProtectedCacheIds`), each sweep as a function from the
  tables before to the tables after, and the lemmas about them.
- `Factory`: the class `Conn` holds one `seq` field per table. The class
  `ResourceCacheFactory` has the seven operations as methods that modify the
  connection's tables. Each sweep method computes the transaction's view of
  its table in a local variable. It writes the field only when `Begin`, the
  `DELETE` and `Commit` all succeed, which models the deferred rollback.

Behaviour of the code worth noting:

- The next-build-input protection (`dbng/resource_cache_factory.go:376-385`)
  does not check whether the resource is active. It compares the resource's
  `config` text with the config's `source_hash`.
- The first sweep never deletes uses of `errored` builds: its status test
  (`dbng/resource_cache_factory.go:238-251`) names only succeeded, failed and
  aborted.
- "Latest build" is `MAX(id)` over builds joined with `jobs`. A failed build
  with no job is therefore never latest, and its uses are deleted.

## Model

| member | source | states |
|---|---|---|
| `Seqs.Filter` | dbng/resource_cache_factory.go:390-395 | a `DELETE` keeps exactly the rows its predicate selects, each with all of its copies, and deletes every copy of the others; nothing is inserted |
| `Seqs.FilterIdempotent` | dbng/resource_cache_factory.go:235-254 | deleting with the same predicate again deletes nothing more |
| `Collector.LatestBuildIds` | dbng/resource_cache_factory.go:217-221 | `latestBuildByJobQ` (`MAX(b.id)` over builds inner-joined with jobs, per job): every id in the set is the id of a build whose job exists, and the build with the largest id of each existing job has its id in the set |
| `Collector.EveryJobHasLatestBuild` | dbng/resource_cache_factory.go:217-221 | every existing job that has a build has a latest build id, at least as large as the id of any of its builds |
| `Collector.LatestBuildIsJobMaximum` | dbng/resource_cache_factory.go:217-221 | with unique build ids, a build's id is a "latest build" id iff the build has an existing job and the largest id among that job's builds |
| `Collector.FinishedBuildIds` | dbng/resource_cache_factory.go:236-251 | the ids of the builds the status test (`ReleasesCaches`) selects: every succeeded or aborted build is in the set, and every id in it belongs to a succeeded, aborted or failed build, never to a pending, started or errored one |
| `Collector.SweepFinishedBuilds` | dbng/resource_cache_factory.go:235-254 | the first sweep changes only `resource_cache_uses`, and only by deleting rows |
| `Collector.FinishedBuildsRule` | dbng/resource_cache_factory.go:235-252 | a use row is deleted iff it has a build id and a build with that id succeeded, was aborted, or failed without being the latest build of its job |
| `Collector.FinishedBuildSurvivors` | dbng/resource_cache_factory.go:217-252 | for a use owned by build b: kept iff b is pending, started or errored, or b failed and is the latest build of its job |
| `Collector.BuildlessUsesSurvive` | dbng/resource_cache_factory.go:235-237 | use rows without a build id survive the first sweep |
| `Collector.JoblessFailedBuildReleases` | dbng/resource_cache_factory.go:217-252 | uses of a failed build that has no job are deleted |
| `Collector.SweepFinishedBuildsIdempotent` | dbng/resource_cache_factory.go:235-254 | running the first sweep twice equals running it once |
| `Collector.FinishedBuildsExample` | dbng/resource_cache_factory.go:235-252 | one job with succeeded, aborted, failed and latest-failed builds: only the latest failed build's use survives |
| `Collector.InactiveResourceTypeIds` | dbng/resource_cache_factory.go:274-279 | the ids of the resource type rows with `active = false`, and no other ids |
| `Collector.SweepInactiveResourceTypes` | dbng/resource_cache_factory.go:274-282 | the second sweep changes only `resource_cache_uses`, and only by deleting rows |
| `Collector.InactiveResourceTypesRule` | dbng/resource_cache_factory.go:274-280 | a use row is deleted iff its resource type id names a resource type with `active = false` |
| `Collector.SweepInactiveResourceTypesIdempotent` | dbng/resource_cache_factory.go:274-282 | running the second sweep twice equals running it once |
| `Collector.InactiveResourceIds` | dbng/resource_cache_factory.go:302-307 | the ids of the resource rows with `active = false`, and no other ids |
| `Collector.SweepInactiveResources` | dbng/resource_cache_factory.go:302-310 | the third sweep changes only `resource_cache_uses`, and only by deleting rows |
| `Collector.InactiveResourcesRule` | dbng/resource_cache_factory.go:302-308 | a use row is deleted iff its resource id names a resource with `active = false` |
| `Collector.SweepInactiveResourcesIdempotent` | dbng/resource_cache_factory.go:302-310 | running the third sweep twice equals running it once |
| `Collector.ImageVersionCacheIds` | dbng/resource_cache_factory.go:339-364 | `extractedCacheIds` (per row, `ImageProtected`): every id is that of a cache with the null params hash, and every such cache whose config a latest build uses and whose version that build recorded as its image resource version is in the set |
| `Collector.NextBuildInputCacheIds` | dbng/resource_cache_factory.go:376-385 | `nextBuildInputsCacheIds` (per row, `NextInputProtected`): every id is that of a cache whose version some versioned resource has, and every cache joined to a next build input through its versioned resource, that resource and a config whose source hash is the resource's config text is in the set |
| `Collector.InUseCacheIds` | dbng/resource_cache_factory.go:366-371 | `stillInUseCacheIds` (per row, `InUse`): exactly the ids of existing caches that some use row references |
| `Collector.ProtectedCacheIds` | dbng/resource_cache_factory.go:390-393 | the ids the three `NOT IN` clauses spare: each is the id of an existing cache, and every in-use cache id is among them |
| `Collector.SweepInvalidCaches` | dbng/resource_cache_factory.go:390-395 | the cache sweep changes only `resource_caches`, and only by deleting rows |
| `Collector.InvalidCachesRule` | dbng/resource_cache_factory.go:339-395 | with unique cache ids, a cache is kept iff it is `Protected`: (a) it has null params and a job's latest build uses its config and recorded its version as image version, or (b) a next build input has its version and the resource's config matches its config's source hash, or (c) a use row references it |
| `Collector.UsedCacheSurvives` | dbng/resource_cache_factory.go:366-393 | a cache that some use row references is never deleted |
| `Collector.ProtectionIgnoresCacheTable` | dbng/resource_cache_factory.go:339-388 | whether a cache row is protected does not depend on the other rows of `resource_caches` |
| `Collector.ProtectedIdHasRow` | dbng/resource_cache_factory.go:357-388 | every id in the three protected sets is the id of a protected cache row |
| `Collector.ProtectedRowHasId` | dbng/resource_cache_factory.go:357-388 | the id of every protected cache row is in one of the three protected sets |
| `Collector.ProtectedCacheIdsOfSubtable` | dbng/resource_cache_factory.go:339-388 | keeping a sub-table that holds every protected row leaves the protected id set unchanged |
| `Collector.ProtectedCacheIdsStable` | dbng/resource_cache_factory.go:390-395 | the cache sweep does not change the protected id set |
| `Collector.SurvivorsAreProtected` | dbng/resource_cache_factory.go:390-395 | with unique cache ids, every cache left by the sweep is protected in the new state |
| `Collector.SweepInvalidCachesIdempotent` | dbng/resource_cache_factory.go:390-395 | running the cache sweep twice equals running it once |
| `Collector.FinishedBuildUsesStopProtecting` | dbng/resource_cache_factory.go:366-371 | if every use of a cache belongs to a finished build, then after the first sweep the cache is no longer in use, so the use sweeps must run before the cache sweep |
| `Factory.Lookup` | dbng/resource_cache_factory.go:155-158 | returns None iff no declared resource type has the name; otherwise returns the first declaration with that name |
| `Factory.Conn.Commit` | dbng/resource_cache_factory.go:94-97 | committing makes the transaction's view of the tables the database state |
| `Factory.ResourceCacheFactory.constructor` | dbng/resource_cache_factory.go:51-55 | the factory wraps the given connection |
| `Factory.ResourceCacheFactory.FindOrCreateResourceCacheForBuild` | dbng/resource_cache_factory.go:57-100 | any error (Begin, resource types, config, find-or-create, Commit) is returned unchanged and leaves the tables exactly as before; on success the result and the new tables are those of the build's find-or-create call in the same transaction |
| `Factory.ResourceCacheFactory.FindOrCreateResourceCacheForResource` | dbng/resource_cache_factory.go:102-145 | the same all-or-nothing pipeline, with the use owned by the resource |
| `Factory.ResourceCacheFactory.FindOrCreateResourceCacheForResourceType` | dbng/resource_cache_factory.go:147-208 | an undeclared name gives `ErrResourceTypeNotFound(name)` before Begin is consulted; a type that `Find` does not find gives the same error; no row is written on any failure; on success the cache comes from the resource-type find-or-create call that is committed |
| `Factory.ResourceCacheFactory.CleanUsesForFinishedBuilds` | dbng/resource_cache_factory.go:210-265 | the error is the first of Begin, DELETE, Commit to fail; the tables become `SweepFinishedBuilds` of the old tables on success and are unchanged otherwise |
| `Factory.ResourceCacheFactory.CleanUsesForInactiveResourceTypes` | dbng/resource_cache_factory.go:267-293 | the same, for `SweepInactiveResourceTypes` |
| `Factory.ResourceCacheFactory.CleanUsesForInactiveResources` | dbng/resource_cache_factory.go:295-321 | the same, for `SweepInactiveResources` |
| `Factory.ResourceCacheFactory.CleanUpInvalidCaches` | dbng/resource_cache_factory.go:323-406 | the same, for `SweepInvalidCaches` |

## Left out

- Building SQL text with the squirrel query builder. The model states the
  resulting predicates. The `ToSql` errors of query construction
  (`dbng/resource_cache_factory.go:222-224, 231-233, 335-388`) are not modelled
  as separate failure points; a failing `DELETE` stands for every failure
  between `Begin` and `Commit`.
- The database connection itself. `Begin`, `Exec` and `Commit` outcomes are
  parameters (`TxOutcomes`, `exec`). Rollback is modelled by not writing the
  transaction's view back.
- The collaborators `getDBResourceTypes`, `constructResourceConfig` (with its
  recursive resolution of custom resource types and its source hashing),
  `ResourceType.Find` and `ResourceCache.FindOrCreateForBuild/ForResource/ForResourceType`.
  Their code is not part of this model. They are parameters that may fail,
  and the model assumes nothing about how they deduplicate rows or detect
  cycles. The model assumes that `getDBResourceTypes` and `ResourceType.Find`
  only read, so they return no tables.
- `atc.ResourceTypes.Lookup` is not part of this model's sources. `Factory.Lookup`
  models it as the first declaration with the given name.
- Concurrency: interleaving of sweeps with creation, isolation levels, and
  uniqueness-constraint races. The factory leaves all of these to the database.
- SQL `NULL` semantics of `NOT IN`. The sub-queries select non-null ids, so
  the model uses plain set non-membership.
- Versions, sources and params are compared as their stored text.
- The schema-migration test, the build-list HTTP handler and the team
  authentication validator. They contain no cache bookkeeping.
