/**
 * The version catalog of src/cloud_provider/utilities.rs: expansion of a
 * compact version range into an explicit key -> version table
 * (`generate_supported_version`), parsing of a requested version
 * (`get_version_number`) and resolution of a request against a table
 * (`get_supported_version_to_use`).
 */
module VersionCatalog {
  import opened Wrappers
  import opened Strings

  /** A catalog key at one of its three granularities: "M", "M.m" or "M.m.u". */
  datatype Key = Major(major: nat) | Minor(major: nat, minor: nat) | Patch(major: nat, minor: nat, update: nat)

  function Components(k: Key): seq<string> {
    match k
    case Major(M) => [NatToString(M)]
    case Minor(M, m) => [NatToString(M), NatToString(m)]
    case Patch(M, m, u) => [NatToString(M), NatToString(m), NatToString(u)]
  }

  /** The key as the source formats it with `format!("{}.{}.{}", ...)`. */
  function Render(k: Key): string {
    match k
    case Major(M) => NatToString(M)
    case Minor(M, m) => NatToString(M) + "." + NatToString(m)
    case Patch(M, m, u) => NatToString(M) + "." + NatToString(m) + "." + NatToString(u)
  }

  /** A rendered key splits on '.' into its decimal components. */
  lemma SplitRender(k: Key)
    ensures Split(Render(k)) == Components(k)
    ensures 1 <= |Split(Render(k))| <= 3
  {
    match k
    case Major(M) =>
      NoDotInNumber(M);
      SplitNoDot(NatToString(M));
    case Minor(M, m) =>
      NoDotInNumber(M);
      NoDotInNumber(m);
      SplitNoDot(NatToString(M));
      SplitNoDot(NatToString(m));
      SplitAtDot(NatToString(M), NatToString(m));
    case Patch(M, m, u) =>
      NoDotInNumber(M);
      NoDotInNumber(m);
      NoDotInNumber(u);
      SplitNoDot(NatToString(M));
      SplitNoDot(NatToString(m));
      SplitNoDot(NatToString(u));
      SplitAtDot(NatToString(M), NatToString(m));
      SplitAtDot(NatToString(M) + "." + NatToString(m), NatToString(u));
  }

  /** Two different keys never render to the same string. */
  lemma RenderInjective(k1: Key, k2: Key)
    requires Render(k1) == Render(k2)
    ensures k1 == k2
  {
    SplitRender(k1);
    SplitRender(k2);
    var c1, c2 := Components(k1), Components(k2);
    assert c1 == c2;
    NatToStringInjective(k1.major, k2.major);
    if k1.Minor? || k1.Patch? {
      NatToStringInjective(k1.minor, k2.minor);
    }
    if k1.Patch? {
      NatToStringInjective(k1.update, k2.update);
    }
  }

  /** The arguments of `generate_supported_version`. */
  datatype VersionRange = VersionRange(
    major: nat,
    minorMin: nat,
    minorMax: nat,
    updateMin: Option<nat>,
    updateMax: Option<nat>,
    suffixVersion: Option<string>)

  /** `update_max` is unwrapped whenever `update_min` is given. */
  predicate HasUpdateMax(r: VersionRange) {
    r.updateMin.Some? ==> r.updateMax.Some?
  }

  /** A range as every caller writes one: non-empty bounds given together. */
  predicate WellFormed(r: VersionRange) {
    && r.minorMin <= r.minorMax
    && r.updateMin.Some? == r.updateMax.Some?
    && (r.updateMin.Some? ==> r.updateMin.value <= r.updateMax.value)
  }

  function Suffix(r: VersionRange): string {
    if r.suffixVersion.Some? then r.suffixVersion.value else ""
  }

  // ---------------------------------------------------------------------
  // The table as the source builds it, insertion by insertion (a later
  // insert of the same key wins, as HashMap::insert does).

  /** Patch keys "M.m.u" for u in [lo, end), each mapped to itself plus the suffix. */
  function PatchRun(major: nat, minor: nat, lo: nat, end: nat, suffix: string): map<string, string>
    decreases end
  {
    if end <= lo then map[]
    else
      var key := Render(Patch(major, minor, end - 1));
      PatchRun(major, minor, lo, end - 1, suffix)[key := key + suffix]
  }

  /** For every minor m in [lo, end): first "M.m" -> "M.m.updateMax" + minorSuffix, then the patch keys of m. */
  function MinorRuns(major: nat, lo: nat, end: nat, updateMin: nat, updateMax: nat, minorSuffix: string, suffix: string): map<string, string>
    decreases end
  {
    if end <= lo then map[]
    else
      var m := end - 1;
      MinorRuns(major, lo, m, updateMin, updateMax, minorSuffix, suffix)[Render(Minor(major, m)) := Render(Patch(major, m, updateMax)) + minorSuffix]
        + PatchRun(major, m, updateMin, updateMax + 1, suffix)
  }

  /** Without updates: "M.m" -> "M.m" plus the suffix for m in [lo, end). */
  function MinorOnlyRun(major: nat, lo: nat, end: nat, suffix: string): map<string, string>
    decreases end
  {
    if end <= lo then map[]
    else
      var key := Render(Minor(major, end - 1));
      MinorOnlyRun(major, lo, end - 1, suffix)[key := key + suffix]
  }

  /** The version the major key "M" points at (`latest_major_version`). */
  function LatestVersion(r: VersionRange): string
    requires HasUpdateMax(r)
  {
    if r.updateMin.Some? then Render(Patch(r.major, r.minorMax, r.updateMax.value)) + Suffix(r)
    else Render(Minor(r.major, r.minorMax)) + Suffix(r)
  }

  /** The table `generate_supported_version` returns; the major key is inserted last. */
  function SupportedVersions(r: VersionRange): map<string, string>
    requires HasUpdateMax(r)
  {
    var entries :=
      if r.updateMin.Some? then
        MinorRuns(r.major, r.minorMin, r.minorMax + 1, r.updateMin.value, r.updateMax.value,
                  if r.minorMin == r.minorMax then Suffix(r) else "", Suffix(r))
      else MinorOnlyRun(r.major, r.minorMin, r.minorMax + 1, Suffix(r));
    entries[Render(Major(r.major)) := LatestVersion(r)]
  }

  // ---------------------------------------------------------------------
  // The same table described key by key.

  /** Whether the range declares key `k`. */
  predicate InCatalog(r: VersionRange, k: Key) {
    match k
    case Major(M) => M == r.major
    case Minor(M, m) => M == r.major && r.minorMin <= m <= r.minorMax
    case Patch(M, m, u) =>
      && r.updateMin.Some? && r.updateMax.Some?
      && M == r.major && r.minorMin <= m <= r.minorMax
      && r.updateMin.value <= u <= r.updateMax.value
  }

  /** The version a declared key resolves to. */
  function Target(r: VersionRange, k: Key): string
    requires HasUpdateMax(r)
  {
    match k
    case Major(_) => LatestVersion(r)
    case Minor(M, m) =>
      if r.updateMin.Some? then
        // the suffix is appended only when the range has a single minor
        Render(Patch(M, m, r.updateMax.value)) + (if r.minorMin == r.minorMax then Suffix(r) else "")
      else Render(k) + Suffix(r)
    case Patch(_, _, _) => Render(k) + Suffix(r)
  }

  predicate InPatchRun(k: Key, major: nat, minor: nat, lo: nat, end: nat) {
    k.Patch? && k.major == major && k.minor == minor && lo <= k.update < end
  }

  lemma {:induction false} PatchRunKeys(major: nat, minor: nat, lo: nat, end: nat, suffix: string)
    ensures forall k :: Render(k) in PatchRun(major, minor, lo, end, suffix) <==> InPatchRun(k, major, minor, lo, end)
    decreases end
  {
    if end > lo {
      PatchRunKeys(major, minor, lo, end - 1, suffix);
      var top := Patch(major, minor, end - 1);
      var prev := PatchRun(major, minor, lo, end - 1, suffix);
      assert PatchRun(major, minor, lo, end, suffix) == prev[Render(top) := Render(top) + suffix];
      forall k ensures Render(k) in prev[Render(top) := Render(top) + suffix] <==> InPatchRun(k, major, minor, lo, end) {
        if k == top {
        } else if Render(k) == Render(top) {
          RenderInjective(k, top);
        } else {
          assert InPatchRun(k, major, minor, lo, end) <==> InPatchRun(k, major, minor, lo, end - 1);
        }
      }
    }
  }

  lemma {:induction false} PatchRunEntries(major: nat, minor: nat, lo: nat, end: nat, suffix: string)
    ensures forall s :: s in PatchRun(major, minor, lo, end, suffix) ==>
      && PatchRun(major, minor, lo, end, suffix)[s] == s + suffix
      && exists k :: InPatchRun(k, major, minor, lo, end) && Render(k) == s
    decreases end
  {
    if end > lo {
      PatchRunEntries(major, minor, lo, end - 1, suffix);
      assert InPatchRun(Patch(major, minor, end - 1), major, minor, lo, end);
    }
  }

  predicate InMinorRuns(k: Key, major: nat, lo: nat, end: nat, updateMin: nat, updateMax: nat) {
    match k
    case Major(_) => false
    case Minor(M, m) => M == major && lo <= m < end
    case Patch(M, m, u) => M == major && lo <= m < end && updateMin <= u <= updateMax
  }

  function MinorRunsTarget(k: Key, major: nat, updateMax: nat, minorSuffix: string, suffix: string): string {
    if k.Minor? then Render(Patch(major, k.minor, updateMax)) + minorSuffix else Render(k) + suffix
  }

  lemma {:induction false} MinorRunsKeys(major: nat, lo: nat, end: nat, updateMin: nat, updateMax: nat, minorSuffix: string, suffix: string)
    ensures forall k :: (Render(k) in MinorRuns(major, lo, end, updateMin, updateMax, minorSuffix, suffix)
      <==> InMinorRuns(k, major, lo, end, updateMin, updateMax))
    decreases end
  {
    if end > lo {
      var m := end - 1;
      MinorRunsKeys(major, lo, m, updateMin, updateMax, minorSuffix, suffix);
      PatchRunKeys(major, m, updateMin, updateMax + 1, suffix);
      var prev := MinorRuns(major, lo, m, updateMin, updateMax, minorSuffix, suffix);
      var mKey := Minor(major, m);
      var mid := prev[Render(mKey) := Render(Patch(major, m, updateMax)) + minorSuffix];
      var run := PatchRun(major, m, updateMin, updateMax + 1, suffix);
      assert MinorRuns(major, lo, end, updateMin, updateMax, minorSuffix, suffix) == mid + run;
      forall k ensures Render(k) in mid + run <==> InMinorRuns(k, major, lo, end, updateMin, updateMax) {
        if InPatchRun(k, major, m, updateMin, updateMax + 1) {
        } else if k == mKey {
        } else if Render(k) == Render(mKey) {
          RenderInjective(k, mKey);
        } else {
          assert InMinorRuns(k, major, lo, end, updateMin, updateMax) <==> InMinorRuns(k, major, lo, m, updateMin, updateMax);
        }
      }
    }
  }

  lemma {:induction false} MinorRunsValues(major: nat, lo: nat, end: nat, updateMin: nat, updateMax: nat, minorSuffix: string, suffix: string)
    ensures forall k :: InMinorRuns(k, major, lo, end, updateMin, updateMax) ==>
      && Render(k) in MinorRuns(major, lo, end, updateMin, updateMax, minorSuffix, suffix)
      && MinorRuns(major, lo, end, updateMin, updateMax, minorSuffix, suffix)[Render(k)]
         == MinorRunsTarget(k, major, updateMax, minorSuffix, suffix)
    decreases end
  {
    MinorRunsKeys(major, lo, end, updateMin, updateMax, minorSuffix, suffix);
    if end > lo {
      var m := end - 1;
      MinorRunsValues(major, lo, m, updateMin, updateMax, minorSuffix, suffix);
      MinorRunsKeys(major, lo, m, updateMin, updateMax, minorSuffix, suffix);
      PatchRunKeys(major, m, updateMin, updateMax + 1, suffix);
      PatchRunEntries(major, m, updateMin, updateMax + 1, suffix);
      var prev := MinorRuns(major, lo, m, updateMin, updateMax, minorSuffix, suffix);
      var mKey := Minor(major, m);
      var mid := prev[Render(mKey) := Render(Patch(major, m, updateMax)) + minorSuffix];
      var run := PatchRun(major, m, updateMin, updateMax + 1, suffix);
      assert MinorRuns(major, lo, end, updateMin, updateMax, minorSuffix, suffix) == mid + run;
      forall k | InMinorRuns(k, major, lo, end, updateMin, updateMax)
        ensures (mid + run)[Render(k)] == MinorRunsTarget(k, major, updateMax, minorSuffix, suffix)
      {
        if InPatchRun(k, major, m, updateMin, updateMax + 1) {
          assert (mid + run)[Render(k)] == run[Render(k)];
        } else if k == mKey {
          assert Render(k) !in run;
        } else {
          assert Render(k) !in run;
          if Render(k) == Render(mKey) {
            RenderInjective(k, mKey);
          }
          assert (mid + run)[Render(k)] == prev[Render(k)];
        }
      }
    }
  }

  lemma {:induction false} MinorRunsEntries(major: nat, lo: nat, end: nat, updateMin: nat, updateMax: nat, minorSuffix: string, suffix: string)
    ensures forall s :: s in MinorRuns(major, lo, end, updateMin, updateMax, minorSuffix, suffix) ==>
      exists k :: InMinorRuns(k, major, lo, end, updateMin, updateMax) && Render(k) == s
    decreases end
  {
    if end > lo {
      var m := end - 1;
      MinorRunsEntries(major, lo, m, updateMin, updateMax, minorSuffix, suffix);
      PatchRunEntries(major, m, updateMin, updateMax + 1, suffix);
      var prev := MinorRuns(major, lo, m, updateMin, updateMax, minorSuffix, suffix);
      var mKey := Minor(major, m);
      var mid := prev[Render(mKey) := Render(Patch(major, m, updateMax)) + minorSuffix];
      var run := PatchRun(major, m, updateMin, updateMax + 1, suffix);
      assert MinorRuns(major, lo, end, updateMin, updateMax, minorSuffix, suffix) == mid + run;
      forall s | s in mid + run
        ensures exists k :: InMinorRuns(k, major, lo, end, updateMin, updateMax) && Render(k) == s
      {
        if s in run {
          var k :| InPatchRun(k, major, m, updateMin, updateMax + 1) && Render(k) == s;
          assert InMinorRuns(k, major, lo, end, updateMin, updateMax);
        } else if s == Render(mKey) {
          assert InMinorRuns(mKey, major, lo, end, updateMin, updateMax);
        } else {
          var k :| InMinorRuns(k, major, lo, m, updateMin, updateMax) && Render(k) == s;
          assert InMinorRuns(k, major, lo, end, updateMin, updateMax);
        }
      }
    }
  }

  predicate InMinorOnlyRun(k: Key, major: nat, lo: nat, end: nat) {
    k.Minor? && k.major == major && lo <= k.minor < end
  }

  lemma {:induction false} MinorOnlyRunKeys(major: nat, lo: nat, end: nat, suffix: string)
    ensures forall k :: Render(k) in MinorOnlyRun(major, lo, end, suffix) <==> InMinorOnlyRun(k, major, lo, end)
    decreases end
  {
    if end > lo {
      MinorOnlyRunKeys(major, lo, end - 1, suffix);
      var top := Minor(major, end - 1);
      var prev := MinorOnlyRun(major, lo, end - 1, suffix);
      assert MinorOnlyRun(major, lo, end, suffix) == prev[Render(top) := Render(top) + suffix];
      forall k ensures Render(k) in prev[Render(top) := Render(top) + suffix] <==> InMinorOnlyRun(k, major, lo, end) {
        if k == top {
        } else if Render(k) == Render(top) {
          RenderInjective(k, top);
        } else {
          assert InMinorOnlyRun(k, major, lo, end) <==> InMinorOnlyRun(k, major, lo, end - 1);
        }
      }
    }
  }

  lemma {:induction false} MinorOnlyRunEntries(major: nat, lo: nat, end: nat, suffix: string)
    ensures forall s :: s in MinorOnlyRun(major, lo, end, suffix) ==>
      && MinorOnlyRun(major, lo, end, suffix)[s] == s + suffix
      && exists k :: InMinorOnlyRun(k, major, lo, end) && Render(k) == s
    decreases end
  {
    if end > lo {
      MinorOnlyRunEntries(major, lo, end - 1, suffix);
      assert InMinorOnlyRun(Minor(major, end - 1), major, lo, end);
    }
  }

  /**
   * The table holds exactly the keys the range declares, each mapped to its
   * target: every patch "M.m.u" of the range to itself plus the suffix, every
   * minor "M.m" to its latest patch (or to itself when no updates are given)
   * and the major "M" to the latest version of the whole range.
   */
  lemma CatalogReference(r: VersionRange)
    requires HasUpdateMax(r)
    ensures forall k :: Render(k) in SupportedVersions(r) <==> InCatalog(r, k)
    ensures forall k :: InCatalog(r, k) ==> SupportedVersions(r)[Render(k)] == Target(r, k)
    ensures forall s :: s in SupportedVersions(r) ==> exists k :: InCatalog(r, k) && Render(k) == s
  {
    var t := SupportedVersions(r);
    var top := Major(r.major);
    assert InCatalog(r, top);
    if r.updateMin.Some? {
      var uMin, uMax := r.updateMin.value, r.updateMax.value;
      var minorSuffix := if r.minorMin == r.minorMax then Suffix(r) else "";
      MinorRunsKeys(r.major, r.minorMin, r.minorMax + 1, uMin, uMax, minorSuffix, Suffix(r));
      MinorRunsValues(r.major, r.minorMin, r.minorMax + 1, uMin, uMax, minorSuffix, Suffix(r));
      MinorRunsEntries(r.major, r.minorMin, r.minorMax + 1, uMin, uMax, minorSuffix, Suffix(r));
      var entries := MinorRuns(r.major, r.minorMin, r.minorMax + 1, uMin, uMax, minorSuffix, Suffix(r));
      assert t == entries[Render(top) := LatestVersion(r)];
      forall k
        ensures Render(k) in t <==> InCatalog(r, k)
        ensures InCatalog(r, k) ==> t[Render(k)] == Target(r, k)
      {
        if Render(k) == Render(top) {
          RenderInjective(k, top);
        }
        assert InCatalog(r, k) <==> (k == top || InMinorRuns(k, r.major, r.minorMin, r.minorMax + 1, uMin, uMax));
      }
      forall s | s in t ensures exists k :: InCatalog(r, k) && Render(k) == s {
        if s != Render(top) {
          var k :| InMinorRuns(k, r.major, r.minorMin, r.minorMax + 1, uMin, uMax) && Render(k) == s;
          assert InCatalog(r, k);
        }
      }
    } else {
      MinorOnlyRunKeys(r.major, r.minorMin, r.minorMax + 1, Suffix(r));
      MinorOnlyRunEntries(r.major, r.minorMin, r.minorMax + 1, Suffix(r));
      var entries := MinorOnlyRun(r.major, r.minorMin, r.minorMax + 1, Suffix(r));
      assert t == entries[Render(top) := LatestVersion(r)];
      forall k
        ensures Render(k) in t <==> InCatalog(r, k)
        ensures InCatalog(r, k) ==> t[Render(k)] == Target(r, k)
      {
        if Render(k) == Render(top) {
          RenderInjective(k, top);
        }
        assert InCatalog(r, k) <==> (k == top || InMinorOnlyRun(k, r.major, r.minorMin, r.minorMax + 1));
      }
      forall s | s in t ensures exists k :: InCatalog(r, k) && Render(k) == s {
        if s != Render(top) {
          var k :| InMinorOnlyRun(k, r.major, r.minorMin, r.minorMax + 1) && Render(k) == s;
          assert InCatalog(r, k);
        }
      }
    }
  }

  // ---------------------------------------------------------------------
  // generate_supported_version, as the source writes it: a mutable map
  // filled in nested loops.

  /** `for update in update_min..update_max + 1`: inserts "M.m.u" -> "M.m.u" + suffix. */
  method InsertUpdates(supported: map<string, string>, major: nat, minor: nat, updateMin: nat, updateMax: nat, suffix: string)
    returns (result: map<string, string>)
    ensures result == supported + PatchRun(major, minor, updateMin, updateMax + 1, suffix)
  {
    result := supported;
    if updateMin == updateMax {
      var version := Render(Patch(major, minor, updateMin));
      result := result[version := version + suffix];
    } else {
      var update := updateMin;
      while update < updateMax + 1
        invariant updateMin <= update
        invariant update <= updateMax + 1 || update == updateMin
        invariant result == supported + PatchRun(major, minor, updateMin, update, suffix)
      {
        var version := Render(Patch(major, minor, update));
        result := result[version := version + suffix];
        update := update + 1;
      }
    }
  }

  method GenerateSupportedVersion(major: nat, minorMin: nat, minorMax: nat,
                                  updateMin: Option<nat>, updateMax: Option<nat>, suffixVersion: Option<string>)
    returns (supportedVersions: map<string, string>)
    requires updateMin.Some? ==> updateMax.Some?
    ensures supportedVersions == SupportedVersions(VersionRange(major, minorMin, minorMax, updateMin, updateMax, suffixVersion))
  {
    ghost var r := VersionRange(major, minorMin, minorMax, updateMin, updateMax, suffixVersion);
    supportedVersions := map[];
    var latestMajorVersion := "";
    var suffix := match suffixVersion case Some(sfx) => sfx case None => "";
    match updateMin {
      case Some(uMin) =>
        var uMax := updateMax.value;
        latestMajorVersion := Render(Patch(major, minorMax, uMax)) + suffix;
        if minorMin == minorMax {
          // short minor key targeting the latest version
          supportedVersions := supportedVersions[Render(Minor(major, minorMax)) := latestMajorVersion];
          supportedVersions := InsertUpdates(supportedVersions, major, minorMin, uMin, uMax, suffix);
          assert supportedVersions == MinorRuns(major, minorMin, minorMax + 1, uMin, uMax, suffix, suffix);
        } else {
          var minor := minorMin;
          while minor < minorMax + 1
            invariant minorMin <= minor
            invariant minor <= minorMax + 1 || minor == minorMin
            invariant supportedVersions == MinorRuns(major, minorMin, minor, uMin, uMax, "", suffix)
          {
            // short minor key targeting the latest update of this minor, without the suffix
            supportedVersions := supportedVersions[Render(Minor(major, minor)) := Render(Patch(major, minor, uMax))];
            assert Render(Patch(major, minor, uMax)) + "" == Render(Patch(major, minor, uMax));
            supportedVersions := InsertUpdates(supportedVersions, major, minor, uMin, uMax, suffix);
            assert supportedVersions == MinorRuns(major, minorMin, minor + 1, uMin, uMax, "", suffix);
            minor := minor + 1;
          }
        }
      case None =>
        latestMajorVersion := Render(Minor(major, minorMax)) + suffix;
        var minor := minorMin;
        while minor < minorMax + 1
          invariant minorMin <= minor
          invariant minor <= minorMax + 1 || minor == minorMin
          invariant supportedVersions == MinorOnlyRun(major, minorMin, minor, suffix)
        {
          var version := Render(Minor(major, minor));
          supportedVersions := supportedVersions[version := version + suffix];
          minor := minor + 1;
        }
    }
    // the major key goes in last
    supportedVersions := supportedVersions[Render(Major(major)) := latestMajorVersion];
  }

  // ---------------------------------------------------------------------
  // get_version_number and get_supported_version_to_use

  /** A requested version split into its first three '.'-separated fields. */
  datatype VersionsNumber = VersionsNumber(major: string, minor: Option<string>, patch: Option<string>)

  function Fields(v: VersionsNumber): seq<string> {
    [v.major]
      + (if v.minor.Some? then [v.minor.value] else [])
      + (if v.patch.Some? then [v.patch.value] else [])
  }

  /** The pieces of a request the resolver looks at: its first three '.'-separated fields. */
  function RequestedComponents(version: string): (c: seq<string>)
    ensures 1 <= |c| <= 3
  {
    var parts := Split(version);
    if |parts| <= 3 then parts else parts[..3]
  }

  function GetVersionNumber(version: string): (r: Result<VersionsNumber, string>)
    ensures r.Ok?
    ensures r.Ok? ==> (r.value.patch.Some? ==> r.value.minor.Some?)
    ensures r.Ok? ==> Fields(r.value) == RequestedComponents(version)
  {
    var parts := Split(version);
    if |parts| == 0 then Err("please check the version you've sent, it can't be checked")
    else
      var minor := if |parts| > 1 then Some(parts[1]) else None;
      var patch := if |parts| > 2 then Some(parts[2]) else None;
      Ok(VersionsNumber(parts[0], minor, patch))
  }

  lemma JoinShapes(p: seq<string>)
    requires 1 <= |p| <= 3
    ensures |p| == 1 ==> Join(p) == p[0]
    ensures |p| == 2 ==> Join(p) == p[0] + "." + p[1]
    ensures |p| == 3 ==> Join(p) == p[0] + "." + p[1] + "." + p[2]
  {
    if |p| >= 2 {
      assert Join(p) == p[0] + "." + Join(p[1..]);
      if |p| == 3 {
        assert Join(p[1..]) == p[1] + "." + Join(p[2..]);
        assert Join(p[2..]) == p[2];
      }
    }
  }

  /** The error text; mysql.rs's resolver prints the prefix "this ", the one of utilities.rs none. */
  function NotSupported(prefix: string, databaseName: string, versionToCheck: string): string {
    prefix + databaseName + " " + versionToCheck + " version is not supported"
  }

  /**
   * Resolution looks up exactly one key, the request's first three fields
   * joined with '.', and never falls back to a coarser or finer key.
   */
  function GetSupportedVersionToUse(prefix: string, databaseName: string,
                                    allSupportedVersions: map<string, string>, versionToCheck: string)
    : (r: Result<string, string>)
    ensures var key := Join(RequestedComponents(versionToCheck));
      && (r.Ok? <==> key in allSupportedVersions)
      && (r.Ok? ==> r.value == allSupportedVersions[key])
      && (r.Err? ==> r.error == NotSupported(prefix, databaseName, versionToCheck))
  {
    JoinShapes(RequestedComponents(versionToCheck));
    match GetVersionNumber(versionToCheck)
    case Err(e) => Err(e)
    case Ok(version) =>
      var unsupported := Err(NotSupported(prefix, databaseName, versionToCheck));
      if version.patch.Some? then
        var key := version.major + "." + version.minor.value + "." + version.patch.value;
        if key in allSupportedVersions then Ok(allSupportedVersions[key]) else unsupported
      else if version.minor.Some? then
        var key := version.major + "." + version.minor.value;
        if key in allSupportedVersions then Ok(allSupportedVersions[key]) else unsupported
      else
        if version.major in allSupportedVersions then Ok(allSupportedVersions[version.major]) else unsupported
  }

  /** A request of at most three fields is looked up verbatim; later fields are ignored. */
  lemma LookupKeyIsRequest(version: string)
    ensures |Split(version)| <= 3 ==> Join(RequestedComponents(version)) == version
    ensures |Split(version)| > 3 ==> Split(Join(RequestedComponents(version))) == Split(version)[..3]
  {
    JoinSplit(version);
    SplitPartsNoDots(version);
    if |Split(version)| > 3 {
      SplitJoin(Split(version)[..3]);
    }
  }

  /** A request written as a rendered key is looked up verbatim. */
  lemma ResolveRenderedKey(prefix: string, databaseName: string, t: map<string, string>, k: Key)
    ensures GetSupportedVersionToUse(prefix, databaseName, t, Render(k))
      == if Render(k) in t then Ok(t[Render(k)]) else Err(NotSupported(prefix, databaseName, Render(k)))
  {
    SplitRender(k);
    LookupKeyIsRequest(Render(k));
  }

  /** A request with a fourth field is looked up as the patch key of its first three. */
  lemma ResolveExtraField(prefix: string, databaseName: string, t: map<string, string>, k: Key, extra: string)
    requires k.Patch? && '.' !in extra
    ensures GetSupportedVersionToUse(prefix, databaseName, t, Render(k) + "." + extra)
      == if Render(k) in t then Ok(t[Render(k)]) else Err(NotSupported(prefix, databaseName, Render(k) + "." + extra))
  {
    var v := Render(k) + "." + extra;
    SplitRender(k);
    SplitAtDot(Render(k), extra);
    SplitNoDot(extra);
    assert Split(v)[..3] == Split(Render(k));
    JoinSplit(Render(k));
  }

  // ---------------------------------------------------------------------
  // Properties of whole tables.

  /** Every value is itself a key of at most three fields, and it resolves to itself. */
  ghost predicate SelfResolving(t: map<string, string>) {
    forall s :: s in t ==> t[s] in t && t[t[s]] == t[s] && |Split(t[s])| <= 3
  }

  /** Every value starts with the fields of its key. */
  ghost predicate Refines(t: map<string, string>) {
    forall s :: s in t ==> Split(s) <= Split(t[s])
  }

  /** Resolving a resolved version again gives it back unchanged. */
  lemma ResolveIdempotent(prefix: string, databaseName: string, t: map<string, string>, versionToCheck: string)
    requires SelfResolving(t)
    ensures var r := GetSupportedVersionToUse(prefix, databaseName, t, versionToCheck);
      r.Ok? ==> GetSupportedVersionToUse(prefix, databaseName, t, r.value) == r
  {
    var r := GetSupportedVersionToUse(prefix, databaseName, t, versionToCheck);
    if r.Ok? {
      LookupKeyIsRequest(r.value);
    }
  }

  /** A resolved version agrees with every field the request gave (major, then minor, then patch). */
  lemma ResolvedVersionExtendsRequest(prefix: string, databaseName: string, t: map<string, string>, versionToCheck: string)
    requires Refines(t)
    ensures var r := GetSupportedVersionToUse(prefix, databaseName, t, versionToCheck);
      r.Ok? ==> RequestedComponents(versionToCheck) <= Split(r.value)
  {
    SplitPartsNoDots(versionToCheck);
    var c := RequestedComponents(versionToCheck);
    assert NoDots(c);
    SplitJoin(c);
  }

  /** The key whose rendering `Target(r, k)` is, when the range has no suffix. */
  function TargetKey(r: VersionRange, k: Key): Key
    requires HasUpdateMax(r)
  {
    match k
    case Major(_) => if r.updateMin.Some? then Patch(r.major, r.minorMax, r.updateMax.value) else Minor(r.major, r.minorMax)
    case Minor(M, m) => if r.updateMin.Some? then Patch(M, m, r.updateMax.value) else k
    case Patch(_, _, _) => k
  }

  lemma TargetIsKey(r: VersionRange, k: Key)
    requires HasUpdateMax(r) && Suffix(r) == "" && InCatalog(r, k)
    ensures Target(r, k) == Render(TargetKey(r, k))
    ensures WellFormed(r) ==> InCatalog(r, TargetKey(r, k)) && TargetKey(r, TargetKey(r, k)) == TargetKey(r, k)
    ensures Components(k) <= Components(TargetKey(r, k))
  {
    var tk := TargetKey(r, k);
    assert Render(tk) + "" == Render(tk);
  }

  /** With no suffix, a well-formed range's table resolves every value to itself. */
  lemma CatalogSelfResolving(r: VersionRange)
    requires WellFormed(r) && Suffix(r) == ""
    ensures SelfResolving(SupportedVersions(r))
  {
    CatalogReference(r);
    var t := SupportedVersions(r);
    forall s | s in t
      ensures t[s] in t && t[t[s]] == t[s] && |Split(t[s])| <= 3
    {
      var k :| InCatalog(r, k) && Render(k) == s;
      var tk := TargetKey(r, k);
      TargetIsKey(r, k);
      TargetIsKey(r, tk);
      SplitRender(tk);
    }
  }

  /** With no suffix, every value of a range's table extends its key. */
  lemma CatalogRefines(r: VersionRange)
    requires HasUpdateMax(r) && Suffix(r) == ""
    ensures Refines(SupportedVersions(r))
  {
    CatalogReference(r);
    var t := SupportedVersions(r);
    forall s | s in t
      ensures Split(s) <= Split(t[s])
    {
      var k :| InCatalog(r, k) && Render(k) == s;
      TargetIsKey(r, k);
      SplitRender(k);
      SplitRender(TargetKey(r, k));
    }
  }

  /** The two ranges share no (major, minor) line. */
  predicate DisjointLines(r1: VersionRange, r2: VersionRange) {
    r1.major != r2.major || r1.minorMax < r2.minorMin || r2.minorMax < r1.minorMin
  }

  /** Ranges on different (major, minor) lines never point into each other's keys. */
  lemma DisjointRangesKeepTargets(r1: VersionRange, r2: VersionRange)
    requires WellFormed(r1) && HasUpdateMax(r2) && Suffix(r1) == ""
    requires DisjointLines(r1, r2)
    ensures forall s :: s in SupportedVersions(r1) ==> SupportedVersions(r1)[s] !in SupportedVersions(r2)
  {
    CatalogReference(r1);
    CatalogReference(r2);
    forall s | s in SupportedVersions(r1)
      ensures SupportedVersions(r1)[s] !in SupportedVersions(r2)
    {
      var k :| InCatalog(r1, k) && Render(k) == s;
      TargetIsKey(r1, k);
      assert !InCatalog(r2, TargetKey(r1, k));
    }
  }

  /**
   * Removing patch keys after generation keeps the table self-resolving as
   * long as the latest update of every minor survives.
   */
  lemma DenylistSparesTargets(r: VersionRange, denied: set<string>)
    requires WellFormed(r) && Suffix(r) == "" && r.updateMin.Some?
    requires forall m :: r.minorMin <= m <= r.minorMax ==> Render(Patch(r.major, m, r.updateMax.value)) !in denied
    ensures SelfResolving(SupportedVersions(r) - denied)
  {
    CatalogReference(r);
    var t := SupportedVersions(r);
    forall s | s in t - denied
      ensures t[s] in t - denied && (t - denied)[t[s]] == t[s] && |Split(t[s])| <= 3
    {
      var k :| InCatalog(r, k) && Render(k) == s;
      var tk := TargetKey(r, k);
      TargetIsKey(r, k);
      TargetIsKey(r, tk);
      SplitRender(tk);
      if !k.Patch? {
        assert Render(tk) !in denied;
      }
    }
  }

  /** Merging two self-resolving tables keeps the property when no value of the first is overwritten by the second. */
  lemma MergeSelfResolving(a: map<string, string>, b: map<string, string>)
    requires SelfResolving(a) && SelfResolving(b)
    requires forall s :: s in a ==> a[s] !in b
    ensures SelfResolving(a + b)
  {
  }
}
