/**
 * The per-engine resolvers of src/cloud_provider/utilities.rs for databases
 * deployed in the cluster: PostgreSQL, MySQL and MongoDB tables merged from
 * generated ranges, and a hand-written Redis table. Their error messages
 * carry no prefix before the database name.
 */
module SelfHostedVersions {
  import opened Wrappers
  import opened Strings
  import opened VersionCatalog
  import opened VersionTables
  import MysqlVersions

  const Postgres10 := VersionRange(10, 1, 14, Some(0), Some(0), None)
  const Postgres11 := VersionRange(11, 1, 9, Some(0), Some(0), None)
  const Postgres12 := VersionRange(12, 2, 4, Some(0), Some(0), None)
  const PostgresSources := [Source(Postgres10, {}), Source(Postgres11, {}), Source(Postgres12, {})]

  const MysqlSources := [Source(MysqlVersions.Mysql57, {}), Source(MysqlVersions.Mysql80, {})]

  const Mongo36 := VersionRange(3, 6, 6, Some(0), Some(21), None)
  const Mongo40 := VersionRange(4, 0, 0, Some(0), Some(21), None)
  const Mongo42 := VersionRange(4, 2, 2, Some(0), Some(11), None)
  const Mongo44 := VersionRange(4, 4, 4, Some(0), Some(2), None)
  const MongoSources := [Source(Mongo36, {}), Source(Mongo40, {}), Source(Mongo42, {}), Source(Mongo44, {})]

  /** The Redis table is written out by hand rather than generated. */
  const RedisVersions: map<string, string> := map["6" := "6.0.9", "6.0" := "6.0.9", "5" := "5.0.10", "5.0" := "5.0.10"]

  function ResolvePostgres(requestedVersion: string): Result<string, string> {
    GetSupportedVersionToUse("", "Postgresql", Merge(PostgresSources), requestedVersion)
  }

  function ResolveMysql(requestedVersion: string): Result<string, string> {
    GetSupportedVersionToUse("", "MySQL", Merge(MysqlSources), requestedVersion)
  }

  function ResolveMongo(requestedVersion: string): Result<string, string> {
    GetSupportedVersionToUse("", "MongoDB", Merge(MongoSources), requestedVersion)
  }

  function ResolveRedis(requestedVersion: string): Result<string, string> {
    GetSupportedVersionToUse("", "Redis", RedisVersions, requestedVersion)
  }

  // ---------------------------------------------------------------------
  // The resolvers, as the source writes them.

  method GetSelfHostedPostgresVersion(requestedVersion: string) returns (r: Result<string, string>)
    ensures r == ResolvePostgres(requestedVersion)
  {
    var supportedPostgresVersions: map<string, string> := map[];
    ghost var merged: seq<Source> := [];

    var v10 := GenerateSupportedVersion(10, 1, 14, Some(0), Some(0), None);
    ExtendUnfiltered(supportedPostgresVersions, merged, v10, Postgres10);
    supportedPostgresVersions := supportedPostgresVersions + v10;
    merged := merged + [Source(Postgres10, {})];

    var v11 := GenerateSupportedVersion(11, 1, 9, Some(0), Some(0), None);
    ExtendUnfiltered(supportedPostgresVersions, merged, v11, Postgres11);
    supportedPostgresVersions := supportedPostgresVersions + v11;
    merged := merged + [Source(Postgres11, {})];

    var v12 := GenerateSupportedVersion(12, 2, 4, Some(0), Some(0), None);
    ExtendUnfiltered(supportedPostgresVersions, merged, v12, Postgres12);
    supportedPostgresVersions := supportedPostgresVersions + v12;
    merged := merged + [Source(Postgres12, {})];

    assert merged == PostgresSources;
    r := GetSupportedVersionToUse("", "Postgresql", supportedPostgresVersions, requestedVersion);
  }

  method GetSelfHostedMysqlVersion(requestedVersion: string) returns (r: Result<string, string>)
    ensures r == ResolveMysql(requestedVersion)
  {
    var supportedMysqlVersions: map<string, string> := map[];
    ghost var merged: seq<Source> := [];

    var v57 := GenerateSupportedVersion(5, 7, 7, Some(16), Some(31), None);
    ExtendUnfiltered(supportedMysqlVersions, merged, v57, MysqlVersions.Mysql57);
    supportedMysqlVersions := supportedMysqlVersions + v57;
    merged := merged + [Source(MysqlVersions.Mysql57, {})];

    var v8 := GenerateSupportedVersion(8, 0, 0, Some(11), Some(21), None);
    ExtendUnfiltered(supportedMysqlVersions, merged, v8, MysqlVersions.Mysql80);
    supportedMysqlVersions := supportedMysqlVersions + v8;
    merged := merged + [Source(MysqlVersions.Mysql80, {})];

    assert merged == MysqlSources;
    r := GetSupportedVersionToUse("", "MySQL", supportedMysqlVersions, requestedVersion);
  }

  method GetSelfHostedMongodbVersion(requestedVersion: string) returns (r: Result<string, string>)
    ensures r == ResolveMongo(requestedVersion)
  {
    var supportedMongodbVersions: map<string, string> := map[];
    ghost var merged: seq<Source> := [];

    var mongoVersion := GenerateSupportedVersion(3, 6, 6, Some(0), Some(21), None);
    ExtendUnfiltered(supportedMongodbVersions, merged, mongoVersion, Mongo36);
    supportedMongodbVersions := supportedMongodbVersions + mongoVersion;
    merged := merged + [Source(Mongo36, {})];

    mongoVersion := GenerateSupportedVersion(4, 0, 0, Some(0), Some(21), None);
    ExtendUnfiltered(supportedMongodbVersions, merged, mongoVersion, Mongo40);
    supportedMongodbVersions := supportedMongodbVersions + mongoVersion;
    merged := merged + [Source(Mongo40, {})];

    mongoVersion := GenerateSupportedVersion(4, 2, 2, Some(0), Some(11), None);
    ExtendUnfiltered(supportedMongodbVersions, merged, mongoVersion, Mongo42);
    supportedMongodbVersions := supportedMongodbVersions + mongoVersion;
    merged := merged + [Source(Mongo42, {})];

    mongoVersion := GenerateSupportedVersion(4, 4, 4, Some(0), Some(2), None);
    ExtendUnfiltered(supportedMongodbVersions, merged, mongoVersion, Mongo44);
    supportedMongodbVersions := supportedMongodbVersions + mongoVersion;
    merged := merged + [Source(Mongo44, {})];

    assert merged == MongoSources;
    r := GetSupportedVersionToUse("", "MongoDB", supportedMongodbVersions, requestedVersion);
  }

  method GetSelfHostedRedisVersion(requestedVersion: string) returns (r: Result<string, string>)
    ensures r == ResolveRedis(requestedVersion)
  {
    var supportedRedisVersions: map<string, string> := map[];
    supportedRedisVersions := supportedRedisVersions["6" := "6.0.9"];
    supportedRedisVersions := supportedRedisVersions["6.0" := "6.0.9"];
    supportedRedisVersions := supportedRedisVersions["5" := "5.0.10"];
    supportedRedisVersions := supportedRedisVersions["5.0" := "5.0.10"];
    r := GetSupportedVersionToUse("", "Redis", supportedRedisVersions, requestedVersion);
  }

  // ---------------------------------------------------------------------
  // Individual requests.

  /** "10" resolves to the latest patch of the latest 10.x minor. */
  lemma PostgresMajorResolvesToLatest()
    ensures ResolvePostgres("10") == Ok("10.14.0")
  {
    assert Render(Major(10)) == "10";
    assert Keeps(PostgresSources[0], Major(10));
    assert !Keeps(PostgresSources[1], Major(10)) && !Keeps(PostgresSources[2], Major(10));
    assert Target(Postgres10, Major(10)) == "10.14.0";
    LookupWinner(PostgresSources, Major(10), 0);
    ResolveInMerge("", "Postgresql", PostgresSources, Major(10));
  }

  /** "10.3" resolves to the latest (and only) patch of 10.3. */
  lemma PostgresMinorResolvesToItsPatch()
    ensures ResolvePostgres("10.3") == Ok("10.3.0")
  {
    assert Render(Minor(10, 3)) == "10.3";
    assert Keeps(PostgresSources[0], Minor(10, 3));
    assert !Keeps(PostgresSources[1], Minor(10, 3)) && !Keeps(PostgresSources[2], Minor(10, 3));
    assert Target(Postgres10, Minor(10, 3)) == "10.3.0";
    LookupWinner(PostgresSources, Minor(10, 3), 0);
    ResolveInMerge("", "Postgresql", PostgresSources, Minor(10, 3));
  }

  /** The 12.x range starts at minor 2, so "12.1" is not supported. */
  lemma PostgresMinorBelowRangeRejected()
    ensures ResolvePostgres("12.1") == Err(NotSupported("", "Postgresql", "12.1"))
  {
    assert Render(Minor(12, 1)) == "12.1";
    assert !Keeps(PostgresSources[0], Minor(12, 1)) && !Keeps(PostgresSources[1], Minor(12, 1));
    assert !Keeps(PostgresSources[2], Minor(12, 1));
    LookupNone(PostgresSources, Minor(12, 1));
    ResolveInMerge("", "Postgresql", PostgresSources, Minor(12, 1));
  }

  /** Only 5.7 and 8.0 are generated for MySQL in the cluster: "5.6" is not supported. */
  lemma MysqlMinor56Rejected()
    ensures ResolveMysql("5.6") == Err(NotSupported("", "MySQL", "5.6"))
  {
    assert Render(Minor(5, 6)) == "5.6";
    assert !Keeps(MysqlSources[0], Minor(5, 6)) && !Keeps(MysqlSources[1], Minor(5, 6));
    LookupNone(MysqlSources, Minor(5, 6));
    ResolveInMerge("", "MySQL", MysqlSources, Minor(5, 6));
  }

  lemma MysqlMajorResolvesToLatest()
    ensures ResolveMysql("5") == Ok("5.7.31")
  {
    assert Render(Major(5)) == "5";
    assert Keeps(MysqlSources[0], Major(5)) && !Keeps(MysqlSources[1], Major(5));
    assert Target(MysqlVersions.Mysql57, Major(5)) == "5.7.31";
    LookupWinner(MysqlSources, Major(5), 0);
    ResolveInMerge("", "MySQL", MysqlSources, Major(5));
  }

  /** Three ranges declare "4"; the 4.4 range is merged last and wins. */
  lemma MongoMajorResolvesToLastRange()
    ensures ResolveMongo("4") == Ok("4.4.2")
  {
    assert Render(Major(4)) == "4";
    assert Keeps(MongoSources[3], Major(4));
    assert Target(Mongo44, Major(4)) == "4.4.2";
    LookupWinner(MongoSources, Major(4), 3);
    ResolveInMerge("", "MongoDB", MongoSources, Major(4));
  }

  lemma MongoMinorResolvesToLatest()
    ensures ResolveMongo("3.6") == Ok("3.6.21")
  {
    assert Render(Minor(3, 6)) == "3.6";
    assert Keeps(MongoSources[0], Minor(3, 6));
    assert !Keeps(MongoSources[1], Minor(3, 6)) && !Keeps(MongoSources[2], Minor(3, 6)) && !Keeps(MongoSources[3], Minor(3, 6));
    assert Target(Mongo36, Minor(3, 6)) == "3.6.21";
    LookupWinner(MongoSources, Minor(3, 6), 0);
    ResolveInMerge("", "MongoDB", MongoSources, Minor(3, 6));
  }

  lemma RedisMajorResolves()
    ensures ResolveRedis("6") == Ok("6.0.9")
  {
    assert Render(Major(6)) == "6";
    ResolveRenderedKey("", "Redis", RedisVersions, Major(6));
  }

  lemma RedisMinorResolves()
    ensures ResolveRedis("5.0") == Ok("5.0.10")
  {
    assert Render(Minor(5, 0)) == "5.0";
    ResolveRenderedKey("", "Redis", RedisVersions, Minor(5, 0));
  }

  /**
   * The Redis table holds no patch keys, so a version it returns is not
   * accepted when requested again.
   */
  lemma RedisReturnedVersionRejected()
    ensures ResolveRedis("6") == Ok("6.0.9")
    ensures ResolveRedis("6.0.9") == Err(NotSupported("", "Redis", "6.0.9"))
  {
    RedisMajorResolves();
    assert Render(Patch(6, 0, 9)) == "6.0.9";
    assert "6.0.9" !in RedisVersions;
    ResolveRenderedKey("", "Redis", RedisVersions, Patch(6, 0, 9));
  }

  // ---------------------------------------------------------------------
  // The generated tables as a whole.

  lemma SelfHostedSourcesWellBehaved()
    ensures ValidSources(PostgresSources) && WellBehavedSources(PostgresSources)
    ensures ValidSources(MysqlSources) && WellBehavedSources(MysqlSources)
    ensures ValidSources(MongoSources) && WellBehavedSources(MongoSources)
  {
  }

  /**
   * A version returned for PostgreSQL, MySQL or MongoDB resolves to itself
   * again and agrees with every field of the request.
   */
  lemma SelfHostedResolutionStable(requestedVersion: string)
    ensures var r := ResolvePostgres(requestedVersion);
      r.Ok? ==> ResolvePostgres(r.value) == r && RequestedComponents(requestedVersion) <= Split(r.value)
    ensures var r := ResolveMysql(requestedVersion);
      r.Ok? ==> ResolveMysql(r.value) == r && RequestedComponents(requestedVersion) <= Split(r.value)
    ensures var r := ResolveMongo(requestedVersion);
      r.Ok? ==> ResolveMongo(r.value) == r && RequestedComponents(requestedVersion) <= Split(r.value)
  {
    SelfHostedSourcesWellBehaved();
    MergedResolutionStable("", "Postgresql", PostgresSources, requestedVersion);
    MergedResolutionStable("", "MySQL", MysqlSources, requestedVersion);
    MergedResolutionStable("", "MongoDB", MongoSources, requestedVersion);
  }

  /**
   * Redis is not self-resolving (see `RedisReturnedVersionRejected`), but a
   * version it returns still agrees with every field of the request.
   */
  lemma RedisResolutionExtendsRequest(requestedVersion: string)
    ensures var r := ResolveRedis(requestedVersion);
      r.Ok? ==> RequestedComponents(requestedVersion) <= Split(r.value)
  {
    RedisRefines();
    ResolvedVersionExtendsRequest("", "Redis", RedisVersions, requestedVersion);
  }

  /** Every Redis entry starts with the fields of its key. */
  lemma RedisRefines()
    ensures Refines(RedisVersions)
  {
    forall s | s in RedisVersions
      ensures Split(s) <= Split(RedisVersions[s])
    {
      if s == "6" {
        RedisEntryRefines(Major(6), Patch(6, 0, 9), "6", "6.0.9");
      } else if s == "6.0" {
        RedisEntryRefines(Minor(6, 0), Patch(6, 0, 9), "6.0", "6.0.9");
      } else if s == "5" {
        RedisEntryRefines(Major(5), Patch(5, 0, 10), "5", "5.0.10");
      } else {
        RedisEntryRefines(Minor(5, 0), Patch(5, 0, 10), "5.0", "5.0.10");
      }
    }
  }

  /** A hand-written entry whose value is the rendering of a key extending the entry's key. */
  lemma RedisEntryRefines(key: Key, value: Key, keyText: string, valueText: string)
    requires Render(key) == keyText && Render(value) == valueText
    requires Components(key) <= Components(value)
    ensures Split(keyText) <= Split(valueText)
  {
    SplitRender(key);
    SplitRender(value);
  }
}
