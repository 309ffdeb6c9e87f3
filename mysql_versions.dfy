/**
 * `get_mysql_version` of src/cloud_provider/aws/databases/mysql.rs: the MySQL
 * catalog for the managed (RDS) and the self-hosted deployment mode. The
 * managed catalog removes the patch versions RDS does not offer after the
 * ranges are generated.
 */
module MysqlVersions {
  import opened Wrappers
  import opened Strings
  import opened VersionCatalog
  import opened VersionTables

  const Mysql56 := VersionRange(5, 6, 6, Some(34), Some(49), None)
  const Mysql57 := VersionRange(5, 7, 7, Some(16), Some(31), None)
  const Mysql80 := VersionRange(8, 0, 0, Some(11), Some(21), None)

  /** Patch versions inside the generated ranges that RDS does not offer. */
  const Rds56Removed: set<string> := {"5.6.47", "5.6.45", "5.6.42", "5.6.38", "5.6.36"}
  const Rds57Removed: set<string> := {"5.7.29", "5.7.27", "5.7.20", "5.7.18"}
  const Rds80Removed: set<string> := {"8.0.18", "8.0.14", "8.0.12"}

  /** The resolver of mysql.rs prints "this " before the database name. */
  const MessagePrefix := "this "

  function DatabaseName(isManagedService: bool): string {
    if isManagedService then "RDS MySQL" else "MySQL"
  }

  /** The ranges of each mode, in the order the resolver extends them. */
  const RdsSources := [Source(Mysql56, Rds56Removed), Source(Mysql57, Rds57Removed), Source(Mysql80, Rds80Removed)]
  const SelfHostedSources := [Source(Mysql56, {}), Source(Mysql57, {}), Source(Mysql80, {})]

  function MysqlSources(isManagedService: bool): (srcs: seq<Source>)
    ensures ValidSources(srcs)
  {
    if isManagedService then RdsSources else SelfHostedSources
  }

  /** The table of each mode. */
  function SupportedMysqlVersions(isManagedService: bool): map<string, string> {
    Merge(MysqlSources(isManagedService))
  }

  /** What `get_mysql_version` returns. */
  function ResolveMysql(requestedVersion: string, isManagedService: bool): Result<string, string> {
    GetSupportedVersionToUse(MessagePrefix, DatabaseName(isManagedService), SupportedMysqlVersions(isManagedService), requestedVersion)
  }

  /** Removing keys one at a time removes them all. */
  lemma RemoveFive(m: map<string, string>, a: string, b: string, c: string, d: string, e: string)
    ensures m - {a} - {b} - {c} - {d} - {e} == m - {a, b, c, d, e}
  {
  }

  lemma RemoveFour(m: map<string, string>, a: string, b: string, c: string, d: string)
    ensures m - {a} - {b} - {c} - {d} == m - {a, b, c, d}
  {
  }

  lemma RemoveThree(m: map<string, string>, a: string, b: string, c: string)
    ensures m - {a} - {b} - {c} == m - {a, b, c}
  {
  }

  lemma RemoveNothing(m: map<string, string>)
    ensures m - {} == m
  {
  }

  /** The merge of three sources, extension by extension. */
  lemma MergeThree(srcs: seq<Source>)
    requires |srcs| == 3 && ValidSources(srcs)
    ensures Merge(srcs) == map[]
      + (SupportedVersions(srcs[0].range) - srcs[0].removed)
      + (SupportedVersions(srcs[1].range) - srcs[1].removed)
      + (SupportedVersions(srcs[2].range) - srcs[2].removed)
  {
    assert Merge(srcs) == Merge(srcs[..2]) + (SupportedVersions(srcs[2].range) - srcs[2].removed);
    assert srcs[..2][..1] == srcs[..1] && srcs[..2][1] == srcs[1];
    assert Merge(srcs[..2]) == Merge(srcs[..1]) + (SupportedVersions(srcs[1].range) - srcs[1].removed);
    assert srcs[..1][..0] == [] && srcs[..1][0] == srcs[0];
    assert Merge(srcs[..1]) == map[] + (SupportedVersions(srcs[0].range) - srcs[0].removed);
  }

  lemma RdsTable()
    ensures SupportedMysqlVersions(true) == map[]
      + (SupportedVersions(Mysql56) - Rds56Removed)
      + (SupportedVersions(Mysql57) - Rds57Removed)
      + (SupportedVersions(Mysql80) - Rds80Removed)
  {
    MergeThree(RdsSources);
  }

  lemma SelfHostedTable()
    ensures SupportedMysqlVersions(false) == map[] + SupportedVersions(Mysql56) + SupportedVersions(Mysql57) + SupportedVersions(Mysql80)
  {
    MergeThree(SelfHostedSources);
    RemoveNothing(SupportedVersions(Mysql56));
    RemoveNothing(SupportedVersions(Mysql57));
    RemoveNothing(SupportedVersions(Mysql80));
  }

  /**
   * The managed mode generates the three RDS ranges and removes the patch
   * versions RDS does not offer; the self-hosted mode merges the three
   * ranges as generated. The request is then resolved against the table.
   */
  method GetMysqlVersion(requestedVersion: string, isManagedService: bool) returns (r: Result<string, string>)
    ensures r == ResolveMysql(requestedVersion, isManagedService)
  {
    var supportedMysqlVersions: map<string, string> := map[];
    var databaseName := "MySQL";

    if isManagedService {
      databaseName := "RDS MySQL";

      var v56 := GenerateSupportedVersion(5, 6, 6, Some(34), Some(49), None);
      ghost var generated := v56;
      v56 := v56 - {"5.6.47"};
      v56 := v56 - {"5.6.45"};
      v56 := v56 - {"5.6.42"};
      v56 := v56 - {"5.6.38"};
      v56 := v56 - {"5.6.36"};
      RemoveFive(generated, "5.6.47", "5.6.45", "5.6.42", "5.6.38", "5.6.36");
      supportedMysqlVersions := supportedMysqlVersions + v56;

      var v57 := GenerateSupportedVersion(5, 7, 7, Some(16), Some(31), None);
      generated := v57;
      v57 := v57 - {"5.7.29"};
      v57 := v57 - {"5.7.27"};
      v57 := v57 - {"5.7.20"};
      v57 := v57 - {"5.7.18"};
      RemoveFour(generated, "5.7.29", "5.7.27", "5.7.20", "5.7.18");
      supportedMysqlVersions := supportedMysqlVersions + v57;

      var v8 := GenerateSupportedVersion(8, 0, 0, Some(11), Some(21), None);
      generated := v8;
      v8 := v8 - {"8.0.18"};
      v8 := v8 - {"8.0.14"};
      v8 := v8 - {"8.0.12"};
      RemoveThree(generated, "8.0.18", "8.0.14", "8.0.12");
      supportedMysqlVersions := supportedMysqlVersions + v8;
      RdsTable();
    } else {
      var v56 := GenerateSupportedVersion(5, 6, 6, Some(34), Some(49), None);
      supportedMysqlVersions := supportedMysqlVersions + v56;

      var v57 := GenerateSupportedVersion(5, 7, 7, Some(16), Some(31), None);
      supportedMysqlVersions := supportedMysqlVersions + v57;

      var v8 := GenerateSupportedVersion(8, 0, 0, Some(11), Some(21), None);
      supportedMysqlVersions := supportedMysqlVersions + v8;
      SelfHostedTable();
    }

    r := GetSupportedVersionToUse(MessagePrefix, databaseName, supportedMysqlVersions, requestedVersion);
  }

  /**
   * A request written as a key resolves to the target of the last range
   * (5.6, then 5.7, then 8.0) that declares the key and keeps it in this
   * mode, and is rejected when no range does.
   */
  lemma ResolveMysqlKey(k: Key, isManagedService: bool)
    ensures var srcs := MysqlSources(isManagedService);
      ResolveMysql(Render(k), isManagedService)
        == if Keeps(srcs[2], k) then Ok(Target(srcs[2].range, k))
           else if Keeps(srcs[1], k) then Ok(Target(srcs[1].range, k))
           else if Keeps(srcs[0], k) then Ok(Target(srcs[0].range, k))
           else Err(NotSupported(MessagePrefix, DatabaseName(isManagedService), Render(k)))
  {
    var srcs := MysqlSources(isManagedService);
    LookupThree(srcs, k);
    ResolveInMerge(MessagePrefix, DatabaseName(isManagedService), srcs, k);
  }

  // ---------------------------------------------------------------------
  // The requests of mysql.rs's own test, managed mode.

  lemma ManagedMajorResolvesToLatest()
    ensures ResolveMysql("8", true) == Ok("8.0.21")
  {
    assert Render(Major(8)) == "8";
    assert Keeps(RdsSources[2], Major(8));
    assert Target(Mysql80, Major(8)) == "8.0.21";
    ResolveMysqlKey(Major(8), true);
  }

  lemma ManagedMinorResolvesToLatest()
    ensures ResolveMysql("8.0", true) == Ok("8.0.21")
  {
    assert Render(Minor(8, 0)) == "8.0";
    assert Keeps(RdsSources[2], Minor(8, 0));
    assert Target(Mysql80, Minor(8, 0)) == "8.0.21";
    ResolveMysqlKey(Minor(8, 0), true);
  }

  /** The 5.6 line lost "5.6.47" and others on RDS, but its minor key still gives its latest patch. */
  lemma ManagedMinorOfDenylistedLine()
    ensures ResolveMysql("5.6", true) == Ok("5.6.49")
  {
    assert Render(Minor(5, 6)) == "5.6";
    assert Keeps(RdsSources[0], Minor(5, 6));
    assert !Keeps(RdsSources[1], Minor(5, 6)) && !Keeps(RdsSources[2], Minor(5, 6));
    assert Target(Mysql56, Minor(5, 6)) == "5.6.49";
    ResolveMysqlKey(Minor(5, 6), true);
  }

  lemma ManagedOfferedPatch()
    ensures ResolveMysql("8.0.16", true) == Ok("8.0.16")
  {
    assert Render(Patch(8, 0, 16)) == "8.0.16";
    assert Keeps(RdsSources[2], Patch(8, 0, 16));
    assert Target(Mysql80, Patch(8, 0, 16)) == "8.0.16";
    ResolveMysqlKey(Patch(8, 0, 16), true);
  }

  /** "8.0.18" is inside the 8.0 range but RDS does not offer it. */
  lemma ManagedRemovedPatch()
    ensures ResolveMysql("8.0.18", true) == Err(NotSupported(MessagePrefix, "RDS MySQL", "8.0.18"))
  {
    assert Render(Patch(8, 0, 18)) == "8.0.18";
    assert "8.0.18" in Rds80Removed;
    assert !Keeps(RdsSources[2], Patch(8, 0, 18));
    assert !Keeps(RdsSources[1], Patch(8, 0, 18)) && !Keeps(RdsSources[0], Patch(8, 0, 18));
    ResolveMysqlKey(Patch(8, 0, 18), true);
  }

  /** Fields after the third are ignored: only the patch key they follow is looked up. */
  lemma ResolveMysqlExtraField(k: Key, extra: string, isManagedService: bool)
    requires k.Patch? && '.' !in extra
    ensures var r, rk := ResolveMysql(Render(k) + "." + extra, isManagedService), ResolveMysql(Render(k), isManagedService);
      r.Ok? == rk.Ok? && (r.Ok? ==> r == rk)
  {
    var name, t := DatabaseName(isManagedService), SupportedMysqlVersions(isManagedService);
    ResolveExtraField(MessagePrefix, name, t, k, extra);
    ResolveRenderedKey(MessagePrefix, name, t, k);
  }

  // ---------------------------------------------------------------------
  // The requests of mysql.rs's own test, self-hosted mode.

  /** "5" is declared by both 5.x ranges; the 5.7 range is merged last and wins. */
  lemma SelfHostedMajorResolvesTo57()
    ensures ResolveMysql("5", false) == Ok("5.7.31")
  {
    assert Render(Major(5)) == "5";
    assert !Keeps(SelfHostedSources[2], Major(5)) && Keeps(SelfHostedSources[1], Major(5));
    assert Target(Mysql57, Major(5)) == "5.7.31";
    ResolveMysqlKey(Major(5), false);
  }

  lemma SelfHostedMinorResolvesToLatest()
    ensures ResolveMysql("5.7", false) == Ok("5.7.31")
  {
    assert Render(Minor(5, 7)) == "5.7";
    assert !Keeps(SelfHostedSources[2], Minor(5, 7)) && Keeps(SelfHostedSources[1], Minor(5, 7));
    assert Target(Mysql57, Minor(5, 7)) == "5.7.31";
    ResolveMysqlKey(Minor(5, 7), false);
  }

  lemma SelfHostedPatchResolvesToItself()
    ensures ResolveMysql("5.7.31", false) == Ok("5.7.31")
  {
    assert Render(Patch(5, 7, 31)) == "5.7.31";
    assert !Keeps(SelfHostedSources[2], Patch(5, 7, 31)) && Keeps(SelfHostedSources[1], Patch(5, 7, 31));
    assert Target(Mysql57, Patch(5, 7, 31)) == "5.7.31";
    ResolveMysqlKey(Patch(5, 7, 31), false);
  }

  lemma SelfHostedUnknownLine()
    ensures ResolveMysql("1.0", false) == Err(NotSupported(MessagePrefix, "MySQL", "1.0"))
  {
    assert Render(Minor(1, 0)) == "1.0";
    assert !Keeps(SelfHostedSources[2], Minor(1, 0)) && !Keeps(SelfHostedSources[1], Minor(1, 0)) && !Keeps(SelfHostedSources[0], Minor(1, 0));
    ResolveMysqlKey(Minor(1, 0), false);
  }

  // ---------------------------------------------------------------------
  // Properties of the two tables as a whole.

  /** Both modes merge patch ranges on distinct lines and keep the latest patch of every minor. */
  lemma MysqlSourcesWellBehaved(isManagedService: bool)
    ensures WellBehavedSources(MysqlSources(isManagedService))
  {
    assert Render(Patch(5, 6, 49)) == "5.6.49";
    assert Render(Patch(5, 7, 31)) == "5.7.31";
    assert Render(Patch(8, 0, 21)) == "8.0.21";
  }

  /** Both MySQL tables resolve every value to itself, and every value extends its key. */
  lemma MysqlTablesWellBehaved(isManagedService: bool)
    ensures SelfResolving(SupportedMysqlVersions(isManagedService))
    ensures Refines(SupportedMysqlVersions(isManagedService))
  {
    MysqlSourcesWellBehaved(isManagedService);
    MergedTableSelfResolving(MysqlSources(isManagedService));
    MergedTableRefines(MysqlSources(isManagedService));
  }

  /**
   * Whatever the request, a version `get_mysql_version` returns resolves to
   * itself again and agrees with every field the request gave.
   */
  lemma MysqlResolutionStable(requestedVersion: string, isManagedService: bool)
    ensures var r := ResolveMysql(requestedVersion, isManagedService);
      r.Ok? ==> ResolveMysql(r.value, isManagedService) == r && RequestedComponents(requestedVersion) <= Split(r.value)
  {
    MysqlTablesWellBehaved(isManagedService);
    var name, t := DatabaseName(isManagedService), SupportedMysqlVersions(isManagedService);
    ResolveIdempotent(MessagePrefix, name, t, requestedVersion);
    ResolvedVersionExtendsRequest(MessagePrefix, name, t, requestedVersion);
  }

  /**
   * The managed and the self-hosted mode resolve every request the same way,
   * unless the request names one of the patch versions RDS does not offer;
   * only the name in the error message differs.
   */
  lemma ModesAgreeOutsideRemoved(requestedVersion: string)
    requires Join(RequestedComponents(requestedVersion)) !in Rds56Removed + Rds57Removed + Rds80Removed
    ensures ResolveMysql(requestedVersion, true).Ok? == ResolveMysql(requestedVersion, false).Ok?
    ensures ResolveMysql(requestedVersion, true).Ok? ==> ResolveMysql(requestedVersion, true) == ResolveMysql(requestedVersion, false)
  {
    MergeOutsideRemoved(RdsSources, Join(RequestedComponents(requestedVersion)));
    assert Unfiltered(RdsSources) == SelfHostedSources;
  }

  /** The keys RDS lacks inside the generated ranges. */
  predicate RemovedByRds(k: Key) {
    exists i :: 0 <= i < 3 && InCatalog(RdsSources[i].range, k) && Render(k) in RdsSources[i].removed
  }

  /** Only patch keys are removed. */
  lemma RemovedArePatches(k: Key)
    requires RemovedByRds(k)
    ensures k.Patch?
  {
    var i :| 0 <= i < 3 && InCatalog(RdsSources[i].range, k) && Render(k) in RdsSources[i].removed;
    if k.Major? {
      assert false;
    } else if k.Minor? {
      assert false;
    }
  }

  /** The managed mode rejects a removed version... */
  lemma RemovedVersionRejectedByRds(k: Key)
    requires RemovedByRds(k)
    ensures ResolveMysql(Render(k), true) == Err(NotSupported(MessagePrefix, "RDS MySQL", Render(k)))
  {
    RemovedArePatches(k);
    ResolveMysqlKey(k, true);
  }

  /** ...which the self-hosted mode offers as itself. */
  lemma RemovedVersionOfferedSelfHosted(k: Key)
    requires RemovedByRds(k)
    ensures ResolveMysql(Render(k), false) == Ok(Render(k))
  {
    RemovedArePatches(k);
    assert Render(k) + "" == Render(k);
    ResolveMysqlKey(k, false);
  }

  /**
   * ...and the minor line of a removed version still resolves on RDS, to a
   * different patch that RDS offers: "5.6.47" is rejected while "5.6" gives
   * "5.6.49".
   */
  lemma RemovedPatchMinorStillResolves(k: Key)
    requires RemovedByRds(k)
    ensures k.Patch?
    ensures var r := ResolveMysql(Render(Minor(k.major, k.minor)), true);
      && r.Ok? && r.value != Render(k)
      && (exists i :: 0 <= i < 3 && InCatalog(RdsSources[i].range, k)
            && r.value == Render(Patch(k.major, k.minor, RdsSources[i].range.updateMax.value)))
      && ResolveMysql(r.value, true) == r
      && RequestedComponents(Render(Minor(k.major, k.minor))) <= Split(r.value)
  {
    var latest := RemovedMinorTarget(k);
    MysqlResolutionStable(Render(Minor(k.major, k.minor)), true);
  }

  /** The minor key of a removed patch finds the latest patch of its line, which is not the removed one. */
  lemma RemovedMinorTarget(k: Key) returns (latest: string)
    requires RemovedByRds(k)
    ensures k.Patch?
    ensures exists i :: (0 <= i < 3 && InCatalog(RdsSources[i].range, k)
      && latest == Render(Patch(k.major, k.minor, RdsSources[i].range.updateMax.value)))
    ensures ResolveMysql(Render(Minor(k.major, k.minor)), true) == Ok(latest)
    ensures latest != Render(k)
  {
    RemovedArePatches(k);
    var i :| 0 <= i < 3 && InCatalog(RdsSources[i].range, k) && Render(k) in RdsSources[i].removed;
    var mk := Minor(k.major, k.minor);
    MinorKeysNotRemoved(i, mk);
    MysqlSourcesWellBehaved(true);
    latest := MinorOfRemovedPatch(RdsSources, i, k);
    ResolveInMerge(MessagePrefix, "RDS MySQL", RdsSources, mk);
  }

  /** RDS removes patch versions only, never the minor key of a line. */
  lemma MinorKeysNotRemoved(i: nat, mk: Key)
    requires i < 3 && mk.Minor? && InCatalog(RdsSources[i].range, mk)
    ensures Render(mk) !in RdsSources[i].removed
  {
    if i == 0 {
      assert Render(mk) == "5.6";
    } else if i == 1 {
      assert Render(mk) == "5.7";
    } else {
      assert Render(mk) == "8.0";
    }
  }
}
