/** The rows of the relational tables that the resource cache factory reads and
    deletes from, and a record holding one finite table per relation. */
module Schema {
  import opened Wrappers

  /** A resource version (`atc.Version`), compared as its stored JSON text. */
  type Version = string

  /** The `params_hash` that the database stores for a cache fetched with no params. */
  const NullParamsHash: string := "null"

  datatype BuildStatus = Pending | Started | Succeeded | Failed | Aborted | Errored

  /** A row of `jobs`. */
  datatype Job = Job(id: int)

  /** A row of `builds`; one-off builds have no job. */
  datatype Build = Build(id: int, jobId: Option<int>, status: BuildStatus)

  /** A row of `resources`; `config` is the resource's source configuration as text. */
  datatype Resource = Resource(id: int, active: bool, config: string)

  /** A row of `resource_types`; `active` becomes false once the type leaves the pipeline. */
  datatype ResourceTypeRow = ResourceTypeRow(id: int, name: string, active: bool)

  /** A row of `resource_configs`. */
  datatype ResourceConfigRow = ResourceConfigRow(id: int, sourceHash: string)

  /** A row of `resource_config_uses`: a resource config needed by a build (or by another owner). */
  datatype ResourceConfigUse = ResourceConfigUse(configId: int, buildId: Option<int>)

  /** A row of `resource_caches`. */
  datatype Cache = Cache(id: int, configId: int, version: Version, paramsHash: string)

  /** A row of `resource_cache_uses`: one owner (build, resource or resource type) needs a cache. */
  datatype CacheUse = CacheUse(cacheId: int, buildId: Option<int>, resourceId: Option<int>, resourceTypeId: Option<int>)

  /** A row of `image_resource_versions`: the version used for a build's container image. */
  datatype ImageResourceVersion = ImageResourceVersion(buildId: int, version: Version)

  /** A row of `versioned_resources`. */
  datatype VersionedResource = VersionedResource(id: int, resourceId: int, version: Version)

  /** A row of `next_build_inputs`: a version slated as input of a job's next build. */
  datatype NextBuildInput = NextBuildInput(jobId: int, versionId: int)

  /** The state of the database, one sequence of rows per table. */
  datatype Tables = Tables(
    jobs: seq<Job>,
    builds: seq<Build>,
    resources: seq<Resource>,
    resourceTypes: seq<ResourceTypeRow>,
    resourceConfigs: seq<ResourceConfigRow>,
    resourceConfigUses: seq<ResourceConfigUse>,
    caches: seq<Cache>,
    cacheUses: seq<CacheUse>,
    imageResourceVersions: seq<ImageResourceVersion>,
    versionedResources: seq<VersionedResource>,
    nextBuildInputs: seq<NextBuildInput>)

  /** `builds.id` is a primary key. */
  predicate UniqueBuildIds(t: Tables) {
    forall b1, b2 :: b1 in t.builds && b2 in t.builds && b1.id == b2.id ==> b1 == b2
  }

  /** `resource_caches.id` is a primary key. */
  predicate UniqueCacheIds(t: Tables) {
    forall c1, c2 :: c1 in t.caches && c2 in t.caches && c1.id == c2.id ==> c1 == c2
  }
}
