/** The garbage-collection rules of the resource cache factory: the sub-queries as
    set-valued functions over the tables, each of the four sweeps as the table state
    its single `DELETE` leaves behind, and the properties the sweeps promise. */
module Collector {
  import opened Wrappers
  import opened Schema
  import opened Seqs

  // ---------------------------------------------------------------------------
  // Latest build of each job (`latestBuildByJobQ`: MAX(b.id) over builds joined
  // with jobs, grouped by job)

  predicate JobExists(jobs: seq<Job>, jobId: int) {
    exists j :: j in jobs && j.id == jobId
  }

  /** `b` belongs to an existing job and no build of that job has a larger id. */
  predicate IsLatestOfJob(jobs: seq<Job>, builds: seq<Build>, b: Build) {
    && b.jobId.Some?
    && JobExists(jobs, b.jobId.value)
    && forall b2 :: b2 in builds && b2.jobId == b.jobId ==> b2.id <= b.id
  }

  /** The `build_id` column of `latestBuildByJobQ`: every id is that of a build
      of an existing job, and the largest build of each existing job has its id
      in the set. */
  function LatestBuildIds(jobs: seq<Job>, builds: seq<Build>): (r: set<int>)
    ensures forall id :: id in r ==>
      exists b :: b in builds && b.id == id && b.jobId.Some? && JobExists(jobs, b.jobId.value)
    ensures forall b :: b in builds && IsLatestOfJob(jobs, builds, b) ==> b.id in r
  {
    set b | b in builds && IsLatestOfJob(jobs, builds, b) :: b.id
  }

  /** Among the builds that share `b`'s job id, one has the largest id. */
  lemma {:induction false} JobMaximum(builds: seq<Build>, b: Build) returns (m: Build)
    requires b in builds
    ensures m in builds && m.jobId == b.jobId
    ensures forall b2 :: b2 in builds && b2.jobId == b.jobId ==> b2.id <= m.id
  {
    if builds[0] == b && forall b2 :: b2 in builds[1..] ==> b2.jobId != b.jobId {
      m := b;
    } else {
      var first := builds[0];
      var b1: Build;
      if b in builds[1..] {
        b1 := b;
      } else {
        b1 :| b1 in builds[1..] && b1.jobId == b.jobId;
      }
      var m1 := JobMaximum(builds[1..], b1);
      m := if first.jobId == b.jobId && first.id > m1.id then first else m1;
      assert builds == [first] + builds[1..];
    }
  }

  /** Every existing job that has builds has a latest build, at least as recent as
      any of its builds: `MAX(b.id)` over a non-empty group is defined. */
  lemma EveryJobHasLatestBuild(jobs: seq<Job>, builds: seq<Build>, b: Build)
    requires b in builds && b.jobId.Some? && JobExists(jobs, b.jobId.value)
    ensures exists id :: id in LatestBuildIds(jobs, builds) && b.id <= id
  {
    var m := JobMaximum(builds, b);
    assert IsLatestOfJob(jobs, builds, m);
    assert m.id in LatestBuildIds(jobs, builds) && b.id <= m.id;
  }

  /** With `builds.id` a primary key, a build's id is among the latest ids exactly
      when the build is the one with the largest id of its (existing) job. */
  lemma LatestBuildIsJobMaximum(t: Tables, b: Build)
    requires UniqueBuildIds(t) && b in t.builds
    ensures b.id in LatestBuildIds(t.jobs, t.builds) <==> IsLatestOfJob(t.jobs, t.builds, b)
  {
  }

  // ---------------------------------------------------------------------------
  // Sweep 1: uses owned by finished builds

  /** The status test of the first sweep: succeeded, aborted, or failed but not
      the latest build of its job. */
  predicate ReleasesCaches(b: Build, latest: set<int>) {
    || b.status == Succeeded
    || (b.id !in latest && b.status == Failed)
    || b.status == Aborted
  }

  /** Ids of the builds whose cache uses the first sweep deletes: every succeeded
      or aborted build, and no build that is pending, started or errored. */
  function FinishedBuildIds(jobs: seq<Job>, builds: seq<Build>): (r: set<int>)
    ensures forall b :: b in builds && b.status in {Succeeded, Aborted} ==> b.id in r
    ensures forall id :: id in r ==>
      exists b :: b in builds && b.id == id && b.status in {Succeeded, Aborted, Failed}
  {
    var latest := LatestBuildIds(jobs, builds);
    set b | b in builds && ReleasesCaches(b, latest) :: b.id
  }

  /** The joined owner column refers to one of `ids` (`rcu.<owner>_id = x.id`). */
  predicate OwnedBy(owner: Option<int>, ids: set<int>) {
    owner.Some? && owner.value in ids
  }

  /** Only `resource_cache_uses` changed, and only by losing rows. */
  predicate PrunesUses(t: Tables, r: Tables) {
    && r == t.(cacheUses := r.cacheUses)
    && multiset(r.cacheUses) <= multiset(t.cacheUses)
  }

  /** Only `resource_caches` changed, and only by losing rows. */
  predicate PrunesCaches(t: Tables, r: Tables) {
    && r == t.(caches := r.caches)
    && multiset(r.caches) <= multiset(t.caches)
  }

  /** The tables after `CleanUsesForFinishedBuilds` deletes its rows. */
  function SweepFinishedBuilds(t: Tables): (r: Tables)
    ensures PrunesUses(t, r)
  {
    var doomed := FinishedBuildIds(t.jobs, t.builds);
    t.(cacheUses := Filter(t.cacheUses, (u: CacheUse) => !OwnedBy(u.buildId, doomed)))
  }

  /** A use row is deleted exactly when it has a build id and a build with that id
      succeeded, was aborted, or failed without being the latest build of its job. */
  lemma FinishedBuildsRule(t: Tables, u: CacheUse)
    requires u in t.cacheUses
    ensures u !in SweepFinishedBuilds(t).cacheUses <==>
      && u.buildId.Some?
      && exists b :: b in t.builds && b.id == u.buildId.value && ReleasesCaches(b, LatestBuildIds(t.jobs, t.builds))
  {
  }

  /** For a use owned by build `b`: it is kept when `b` is pending, started or
      errored, or is the failed latest build of its job, and deleted otherwise. */
  lemma FinishedBuildSurvivors(t: Tables, u: CacheUse, b: Build)
    requires UniqueBuildIds(t)
    requires u in t.cacheUses && b in t.builds && u.buildId == Some(b.id)
    ensures u in SweepFinishedBuilds(t).cacheUses <==>
      || b.status in {Pending, Started, Errored}
      || (b.status == Failed && IsLatestOfJob(t.jobs, t.builds, b))
  {
    FinishedBuildsRule(t, u);
    LatestBuildIsJobMaximum(t, b);
  }

  /** Uses with no build id are never touched by the first sweep. */
  lemma BuildlessUsesSurvive(t: Tables, u: CacheUse)
    requires u in t.cacheUses && u.buildId.None?
    ensures u in SweepFinishedBuilds(t).cacheUses
  {
  }

  /** A failed build with no job is never the latest of a job, so its uses go. */
  lemma JoblessFailedBuildReleases(t: Tables, u: CacheUse, b: Build)
    requires UniqueBuildIds(t)
    requires u in t.cacheUses && b in t.builds && u.buildId == Some(b.id)
    requires b.status == Failed && b.jobId.None?
    ensures u !in SweepFinishedBuilds(t).cacheUses
  {
    FinishedBuildSurvivors(t, u, b);
  }

  lemma SweepFinishedBuildsIdempotent(t: Tables)
    ensures SweepFinishedBuilds(SweepFinishedBuilds(t)) == SweepFinishedBuilds(t)
  {
    var doomed := FinishedBuildIds(t.jobs, t.builds);
    FilterIdempotent(t.cacheUses, (u: CacheUse) => !OwnedBy(u.buildId, doomed));
  }

  // ---------------------------------------------------------------------------
  // Sweep 2: uses owned by inactive resource types

  /** Ids of the resource types with `active = false`. */
  function InactiveResourceTypeIds(resourceTypes: seq<ResourceTypeRow>): (r: set<int>)
    ensures forall rt :: rt in resourceTypes && !rt.active ==> rt.id in r
    ensures forall id :: id in r ==> exists rt :: rt in resourceTypes && rt.id == id && !rt.active
  {
    set rt | rt in resourceTypes && !rt.active :: rt.id
  }

  /** The tables after `CleanUsesForInactiveResourceTypes` deletes its rows. */
  function SweepInactiveResourceTypes(t: Tables): (r: Tables)
    ensures PrunesUses(t, r)
  {
    var inactive := InactiveResourceTypeIds(t.resourceTypes);
    t.(cacheUses := Filter(t.cacheUses, (u: CacheUse) => !OwnedBy(u.resourceTypeId, inactive)))
  }

  /** A use row is deleted exactly when its resource type id names an inactive
      resource type. */
  lemma InactiveResourceTypesRule(t: Tables, u: CacheUse)
    requires u in t.cacheUses
    ensures u !in SweepInactiveResourceTypes(t).cacheUses <==>
      && u.resourceTypeId.Some?
      && exists rt :: rt in t.resourceTypes && rt.id == u.resourceTypeId.value && !rt.active
  {
  }

  lemma SweepInactiveResourceTypesIdempotent(t: Tables)
    ensures SweepInactiveResourceTypes(SweepInactiveResourceTypes(t)) == SweepInactiveResourceTypes(t)
  {
    var inactive := InactiveResourceTypeIds(t.resourceTypes);
    FilterIdempotent(t.cacheUses, (u: CacheUse) => !OwnedBy(u.resourceTypeId, inactive));
  }

  // ---------------------------------------------------------------------------
  // Sweep 3: uses owned by inactive resources

  /** Ids of the resources with `active = false`. */
  function InactiveResourceIds(resources: seq<Resource>): (r: set<int>)
    ensures forall res :: res in resources && !res.active ==> res.id in r
    ensures forall id :: id in r ==> exists res :: res in resources && res.id == id && !res.active
  {
    set r | r in resources && !r.active :: r.id
  }

  /** The tables after `CleanUsesForInactiveResources` deletes its rows. */
  function SweepInactiveResources(t: Tables): (r: Tables)
    ensures PrunesUses(t, r)
  {
    var inactive := InactiveResourceIds(t.resources);
    t.(cacheUses := Filter(t.cacheUses, (u: CacheUse) => !OwnedBy(u.resourceId, inactive)))
  }

  /** A use row is deleted exactly when its resource id names an inactive resource. */
  lemma InactiveResourcesRule(t: Tables, u: CacheUse)
    requires u in t.cacheUses
    ensures u !in SweepInactiveResources(t).cacheUses <==>
      && u.resourceId.Some?
      && exists r :: r in t.resources && r.id == u.resourceId.value && !r.active
  {
  }

  lemma SweepInactiveResourcesIdempotent(t: Tables)
    ensures SweepInactiveResources(SweepInactiveResources(t)) == SweepInactiveResources(t)
  {
    var inactive := InactiveResourceIds(t.resources);
    FilterIdempotent(t.cacheUses, (u: CacheUse) => !OwnedBy(u.resourceId, inactive));
  }

  // ---------------------------------------------------------------------------
  // Sweep 4: caches outside the three protected sets

  /** Set (a), per cache row: the cache has the null params hash, and some latest
      build of a job both uses the cache's config and recorded the cache's
      version as its image resource version. */
  predicate ImageProtected(t: Tables, c: Cache) {
    var latest := LatestBuildIds(t.jobs, t.builds);
    && c.paramsHash == NullParamsHash
    && exists irv, rfu ::
      && irv in t.imageResourceVersions && rfu in t.resourceConfigUses
      && irv.buildId in latest
      && rfu.buildId == Some(irv.buildId)
      && rfu.configId == c.configId
      && irv.version == c.version
  }

  /** Set (b), per cache row: some next build input is a version of a resource
      equal to the cache's version, and the resource's config text equals the
      source hash of the cache's config. */
  predicate NextInputProtected(t: Tables, c: Cache) {
    exists nbi, vr, r, rf ::
      && nbi in t.nextBuildInputs && vr in t.versionedResources
      && r in t.resources && rf in t.resourceConfigs
      && vr.id == nbi.versionId
      && r.id == vr.resourceId
      && c.version == vr.version
      && c.configId == rf.id
      && r.config == rf.sourceHash
  }

  /** Set (c), per cache row: at least one use row references the cache. */
  predicate InUse(t: Tables, c: Cache) {
    exists u :: u in t.cacheUses && u.cacheId == c.id
  }

  /** The row-level protection test, as a single predicate. */
  predicate Protected(t: Tables, c: Cache) {
    ImageProtected(t, c) || NextInputProtected(t, c) || InUse(t, c)
  }

  /** `extractedCacheIds`: ids of caches with the null params hash whose config
      and version a latest build recorded for its image. */
  function ImageVersionCacheIds(t: Tables): (r: set<int>)
    ensures forall id :: id in r ==>
      exists c :: c in t.caches && c.id == id && c.paramsHash == NullParamsHash
    ensures forall c, irv, rfu ::
      && c in t.caches && c.paramsHash == NullParamsHash
      && irv in t.imageResourceVersions && rfu in t.resourceConfigUses
      && irv.buildId in LatestBuildIds(t.jobs, t.builds)
      && rfu.buildId == Some(irv.buildId) && rfu.configId == c.configId && irv.version == c.version
      ==> c.id in r
  {
    set c | c in t.caches && ImageProtected(t, c) :: c.id
  }

  /** `nextBuildInputsCacheIds`: ids of caches whose version is that of a next
      build input and whose config's source hash is the resource's config. */
  function NextBuildInputCacheIds(t: Tables): (r: set<int>)
    ensures forall id :: id in r ==>
      exists c, vr :: c in t.caches && c.id == id && vr in t.versionedResources && c.version == vr.version
    ensures forall c, nbi, vr, res, rf ::
      && c in t.caches && nbi in t.nextBuildInputs && vr in t.versionedResources
      && res in t.resources && rf in t.resourceConfigs
      && vr.id == nbi.versionId && res.id == vr.resourceId && c.version == vr.version
      && c.configId == rf.id && res.config == rf.sourceHash
      ==> c.id in r
  {
    set c | c in t.caches && NextInputProtected(t, c) :: c.id
  }

  /** `stillInUseCacheIds`: the ids of the existing caches that a use row
      references. */
  function InUseCacheIds(t: Tables): (r: set<int>)
    ensures forall id :: id in r ==>
      (exists c :: c in t.caches && c.id == id) && exists u :: u in t.cacheUses && u.cacheId == id
    ensures forall c, u :: c in t.caches && u in t.cacheUses && u.cacheId == c.id ==> c.id in r
  {
    set c | c in t.caches && InUse(t, c) :: c.id
  }

  /** The ids the three `NOT IN` clauses keep: each is the id of an existing cache,
      and every referenced cache is among them. */
  function ProtectedCacheIds(t: Tables): (r: set<int>)
    ensures forall id :: id in r ==> exists c :: c in t.caches && c.id == id
    ensures InUseCacheIds(t) <= r
  {
    ImageVersionCacheIds(t) + NextBuildInputCacheIds(t) + InUseCacheIds(t)
  }

  /** The tables after `CleanUpInvalidCaches` deletes its rows. */
  function SweepInvalidCaches(t: Tables): (r: Tables)
    ensures PrunesCaches(t, r)
  {
    var protected := ProtectedCacheIds(t);
    t.(caches := Filter(t.caches, (c: Cache) => c.id in protected))
  }

  /** With `resource_caches.id` a primary key, a cache row is deleted exactly
      when it is in none of the three protected sets. */
  lemma InvalidCachesRule(t: Tables, c: Cache)
    requires UniqueCacheIds(t) && c in t.caches
    ensures c in SweepInvalidCaches(t).caches <==> Protected(t, c)
  {
    var protected := ProtectedCacheIds(t);
    assert c in SweepInvalidCaches(t).caches <==> c.id in protected;
    if Protected(t, c) {
      ProtectedRowHasId(t, c);
    }
    if c.id in protected {
      ProtectedIdHasRow(t, c.id);
      var c' :| c' in t.caches && c'.id == c.id && Protected(t, c');
      assert c' == c;
    }
  }

  /** A cache that a use row still references is never deleted. */
  lemma UsedCacheSurvives(t: Tables, c: Cache, u: CacheUse)
    requires c in t.caches && u in t.cacheUses && u.cacheId == c.id
    ensures c in SweepInvalidCaches(t).caches
  {
  }

  /** Whether a cache row is protected depends on the other tables and on the
      row itself, never on the rest of `resource_caches`. */
  lemma ProtectionIgnoresCacheTable(t: Tables, caches: seq<Cache>, c: Cache)
    ensures ImageProtected(t.(caches := caches), c) == ImageProtected(t, c)
    ensures NextInputProtected(t.(caches := caches), c) == NextInputProtected(t, c)
    ensures InUse(t.(caches := caches), c) == InUse(t, c)
  {
  }

  /** Every protected id is the id of a protected row. */
  lemma ProtectedIdHasRow(t: Tables, id: int)
    requires id in ProtectedCacheIds(t)
    ensures exists c :: c in t.caches && c.id == id && Protected(t, c)
  {
  }

  /** The id of every protected row is protected. */
  lemma ProtectedRowHasId(t: Tables, c: Cache)
    requires c in t.caches && Protected(t, c)
    ensures c.id in ProtectedCacheIds(t)
  {
  }

  /** Keeping a sub-table that still holds every protected row leaves the
      protected id set as it was. */
  lemma ProtectedCacheIdsOfSubtable(t: Tables, caches: seq<Cache>)
    requires forall c :: c in caches ==> c in t.caches
    requires forall c :: c in t.caches && Protected(t, c) ==> c in caches
    ensures ProtectedCacheIds(t.(caches := caches)) == ProtectedCacheIds(t)
  {
    var t' := t.(caches := caches);
    forall c
      ensures Protected(t', c) == Protected(t, c)
    {
      ProtectionIgnoresCacheTable(t, caches, c);
    }
    forall id | id in ProtectedCacheIds(t)
      ensures id in ProtectedCacheIds(t')
    {
      ProtectedIdHasRow(t, id);
      var c :| c in t.caches && c.id == id && Protected(t, c);
      ProtectedRowHasId(t', c);
    }
    forall id | id in ProtectedCacheIds(t')
      ensures id in ProtectedCacheIds(t)
    {
      ProtectedIdHasRow(t', id);
      var c :| c in t'.caches && c.id == id && Protected(t', c);
      ProtectedRowHasId(t, c);
    }
  }

  /** Deleting the unprotected rows leaves the protected id set as it was. */
  lemma ProtectedCacheIdsStable(t: Tables)
    ensures ProtectedCacheIds(SweepInvalidCaches(t)) == ProtectedCacheIds(t)
  {
    var protected := ProtectedCacheIds(t);
    var kept := Filter(t.caches, (c: Cache) => c.id in protected);
    forall c | c in t.caches && Protected(t, c)
      ensures c in kept
    {
      ProtectedRowHasId(t, c);
    }
    ProtectedCacheIdsOfSubtable(t, kept);
  }

  /** After the cache sweep every remaining cache is protected in the new state:
      no unreferenced, unprotected cache is left behind. */
  lemma SurvivorsAreProtected(t: Tables, c: Cache)
    requires UniqueCacheIds(t) && c in SweepInvalidCaches(t).caches
    ensures Protected(SweepInvalidCaches(t), c)
  {
    var t' := SweepInvalidCaches(t);
    InvalidCachesRule(t, c);
    ProtectionIgnoresCacheTable(t, t'.caches, c);
  }

  lemma SweepInvalidCachesIdempotent(t: Tables)
    ensures SweepInvalidCaches(SweepInvalidCaches(t)) == SweepInvalidCaches(t)
  {
    var protected := ProtectedCacheIds(t);
    ProtectedCacheIdsStable(t);
    FilterIdempotent(t.caches, (c: Cache) => c.id in protected);
  }

  // ---------------------------------------------------------------------------
  // Sweep order

  /** Why the use sweeps run before the cache sweep: once every use of a cache is
      owned by a finished build, after the first sweep the cache is no longer in
      use, so only sets (a) and (b) can still protect it. */
  lemma FinishedBuildUsesStopProtecting(t: Tables, c: Cache)
    requires forall u :: u in t.cacheUses && u.cacheId == c.id ==> OwnedBy(u.buildId, FinishedBuildIds(t.jobs, t.builds))
    ensures !InUse(SweepFinishedBuilds(t), c)
  {
    var t' := SweepFinishedBuilds(t);
    forall u | u in t'.cacheUses
      ensures u.cacheId != c.id
    {
      assert u in t.cacheUses;
    }
  }

  // ---------------------------------------------------------------------------
  // A worked case of the first sweep

  function ExampleBuilds(): seq<Build> {
    [Build(1, Some(7), Succeeded), Build(2, Some(7), Aborted), Build(3, Some(7), Failed), Build(4, Some(7), Failed)]
  }

  function ExampleUses(): seq<CacheUse> {
    [CacheUse(10, Some(1), None, None), CacheUse(10, Some(2), None, None),
     CacheUse(10, Some(3), None, None), CacheUse(10, Some(4), None, None)]
  }

  lemma ExampleLatestBuildIds()
    ensures LatestBuildIds([Job(7)], ExampleBuilds()) == {4}
  {
    var jobs, builds := [Job(7)], ExampleBuilds();
    assert JobExists(jobs, 7) by { assert jobs[0].id == 7; }
    assert IsLatestOfJob(jobs, builds, builds[3]);
    forall b | b in builds && b.id != 4
      ensures !IsLatestOfJob(jobs, builds, b)
    {
      assert builds[3] in builds && builds[3].jobId == b.jobId;
    }
  }

  lemma ExampleFinishedBuildIds()
    ensures FinishedBuildIds([Job(7)], ExampleBuilds()) == {1, 2, 3}
  {
    var builds := ExampleBuilds();
    ExampleLatestBuildIds();
    var latest: set<int> := {4};
    var released := set b | b in builds && ReleasesCaches(b, latest) :: b.id;
    assert FinishedBuildIds([Job(7)], builds) == released;
    forall id | id in released
      ensures id in {1, 2, 3}
    {
      var b :| b in builds && ReleasesCaches(b, latest) && b.id == id;
    }
    assert builds[0] in builds && ReleasesCaches(builds[0], latest);
    assert builds[1] in builds && ReleasesCaches(builds[1], latest);
    assert builds[2] in builds && ReleasesCaches(builds[2], latest);
  }

  lemma ExampleFilter(doomed: set<int>)
    requires doomed == {1, 2, 3}
    ensures Filter(ExampleUses(), (u: CacheUse) => !OwnedBy(u.buildId, doomed)) == [CacheUse(10, Some(4), None, None)]
  {
    var keep := (u: CacheUse) => !OwnedBy(u.buildId, doomed);
    var uses := ExampleUses();
    assert !keep(uses[0]) && !keep(uses[1]) && !keep(uses[2]) && keep(uses[3]);
    var s3, s2, s1 := uses[3..], uses[2..], uses[1..];
    assert s3 == [uses[3]] && s3[1..] == [];
    assert Filter(s3, keep) == [uses[3]];
    assert s2[0] == uses[2] && s2[1..] == s3;
    assert Filter(s2, keep) == Filter(s3, keep);
    assert s1[0] == uses[1] && s1[1..] == s2;
    assert Filter(s1, keep) == Filter(s2, keep);
    assert uses[1..] == s1;
  }

  /** One job with a succeeded, an aborted and two failed builds, and one use per
      build: only the use of the latest failed build survives. */
  lemma FinishedBuildsExample()
    ensures SweepFinishedBuilds(Tables([Job(7)], ExampleBuilds(), [], [], [], [], [], ExampleUses(), [], [], [])).cacheUses
      == [CacheUse(10, Some(4), None, None)]
  {
    ExampleFinishedBuildIds();
    ExampleFilter(FinishedBuildIds([Job(7)], ExampleBuilds()));
  }
}
