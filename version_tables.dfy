/**
 * Tables merged from several generated ranges, as every per-engine resolver
 * of the catalog builds them: each range is generated, optionally stripped
 * of some keys, and extended into one map in order, so that a later range
 * overwrites a key an earlier one also declares.
 */
module VersionTables {
  import opened Wrappers
  import opened Strings
  import opened VersionCatalog

  /** One generated range and the keys removed from it before the merge. */
  datatype Source = Source(range: VersionRange, removed: set<string>)

  predicate ValidSources(srcs: seq<Source>) {
    forall i :: 0 <= i < |srcs| ==> HasUpdateMax(srcs[i].range)
  }

  /** The merged table: the sources extended into an empty map in order. */
  function Merge(srcs: seq<Source>): map<string, string>
    requires ValidSources(srcs)
  {
    if |srcs| == 0 then map[]
    else
      var last := srcs[|srcs| - 1];
      Merge(srcs[..|srcs| - 1]) + (SupportedVersions(last.range) - last.removed)
  }

  /** Whether a source still declares key `k` after its removals. */
  predicate Keeps(src: Source, k: Key) {
    InCatalog(src.range, k) && Render(k) !in src.removed
  }

  /** The version key `k` resolves to: the target in the last source that keeps it. */
  function Lookup(srcs: seq<Source>, k: Key): Option<string>
    requires ValidSources(srcs)
  {
    if |srcs| == 0 then None
    else
      var last := srcs[|srcs| - 1];
      if Keeps(last, k) then Some(Target(last.range, k)) else Lookup(srcs[..|srcs| - 1], k)
  }

  /** Extending the merge by one more source. */
  lemma MergeSnoc(srcs: seq<Source>, src: Source)
    requires ValidSources(srcs) && HasUpdateMax(src.range)
    ensures ValidSources(srcs + [src])
    ensures Merge(srcs + [src]) == Merge(srcs) + (SupportedVersions(src.range) - src.removed)
  {
    assert (srcs + [src])[..|srcs|] == srcs;
  }

  /**
   * A table built by merging generated ranges one at a time is the merge of
   * those ranges, each with nothing removed.
   */
  lemma ExtendUnfiltered(table: map<string, string>, srcs: seq<Source>, generated: map<string, string>, range: VersionRange)
    requires ValidSources(srcs) && HasUpdateMax(range)
    requires table == Merge(srcs) && generated == SupportedVersions(range)
    ensures ValidSources(srcs + [Source(range, {})])
    ensures table + generated == Merge(srcs + [Source(range, {})])
  {
    MergeSnoc(srcs, Source(range, {}));
    assert SupportedVersions(range) - {} == SupportedVersions(range);
  }

  /** The merged table holds exactly the keys some source keeps, each at the target of the last such source. */
  lemma {:induction false} MergeLookup(srcs: seq<Source>, k: Key)
    requires ValidSources(srcs)
    ensures Render(k) in Merge(srcs) <==> Lookup(srcs, k).Some?
    ensures Lookup(srcs, k).Some? ==> Merge(srcs)[Render(k)] == Lookup(srcs, k).value
    decreases |srcs|
  {
    if |srcs| > 0 {
      var last := srcs[|srcs| - 1];
      MergeLookup(srcs[..|srcs| - 1], k);
      CatalogReference(last.range);
    }
  }

  /** With three sources, the last one that keeps the key wins. */
  lemma LookupThree(srcs: seq<Source>, k: Key)
    requires |srcs| == 3 && ValidSources(srcs)
    ensures Lookup(srcs, k)
      == if Keeps(srcs[2], k) then Some(Target(srcs[2].range, k))
         else if Keeps(srcs[1], k) then Some(Target(srcs[1].range, k))
         else if Keeps(srcs[0], k) then Some(Target(srcs[0].range, k))
         else None
  {
    assert srcs[..2][..1] == srcs[..1] && srcs[..2][1] == srcs[1];
    assert srcs[..1][..0] == [] && srcs[..1][0] == srcs[0];
    assert Lookup(srcs[..1], k) == if Keeps(srcs[0], k) then Some(Target(srcs[0].range, k)) else None;
    assert Lookup(srcs[..2], k) == if Keeps(srcs[1], k) then Some(Target(srcs[1].range, k)) else Lookup(srcs[..1], k);
  }

  /** The key resolves in source `i` when that source keeps it and no later one does. */
  lemma {:induction false} LookupWinner(srcs: seq<Source>, k: Key, i: nat)
    requires ValidSources(srcs) && i < |srcs| && Keeps(srcs[i], k)
    requires forall j :: i < j < |srcs| ==> !Keeps(srcs[j], k)
    ensures Lookup(srcs, k) == Some(Target(srcs[i].range, k))
    decreases |srcs|
  {
    var n := |srcs| - 1;
    if i < n {
      assert srcs[..n][i] == srcs[i];
      LookupWinner(srcs[..n], k, i);
    }
  }

  /** The key resolves nowhere when no source keeps it. */
  lemma {:induction false} LookupNone(srcs: seq<Source>, k: Key)
    requires ValidSources(srcs)
    requires forall j :: 0 <= j < |srcs| ==> !Keeps(srcs[j], k)
    ensures Lookup(srcs, k) == None
    decreases |srcs|
  {
    if |srcs| > 0 {
      var n := |srcs| - 1;
      assert forall j :: 0 <= j < n ==> srcs[..n][j] == srcs[j];
      LookupNone(srcs[..n], k);
    }
  }

  /** A request written as a key resolves to what `Lookup` finds, and is rejected when no source keeps it. */
  lemma ResolveInMerge(prefix: string, databaseName: string, srcs: seq<Source>, k: Key)
    requires ValidSources(srcs)
    ensures GetSupportedVersionToUse(prefix, databaseName, Merge(srcs), Render(k))
      == match Lookup(srcs, k)
         case Some(v) => Ok(v)
         case None => Err(NotSupported(prefix, databaseName, Render(k)))
  {
    MergeLookup(srcs, k);
    ResolveRenderedKey(prefix, databaseName, Merge(srcs), k);
  }

  // ---------------------------------------------------------------------
  // Merged tables whose values all resolve to themselves.

  /** The latest patch of every minor of the source survives its removals. */
  predicate SparesLatest(src: Source)
    requires src.range.updateMax.Some?
  {
    forall m :: src.range.minorMin <= m <= src.range.minorMax ==>
      Render(Patch(src.range.major, m, src.range.updateMax.value)) !in src.removed
  }

  /** Sources as the resolvers write them: patch ranges without suffix on distinct lines, latest patches kept. */
  predicate WellBehavedSources(srcs: seq<Source>) {
    && (forall i :: 0 <= i < |srcs| ==>
          && WellFormed(srcs[i].range) && Suffix(srcs[i].range) == "" && srcs[i].range.updateMin.Some?
          && SparesLatest(srcs[i]))
    && (forall i, j :: 0 <= i < j < |srcs| ==> DisjointLines(srcs[i].range, srcs[j].range))
  }

  /**
   * When a source removes a patch version but keeps its minor key, that minor
   * key still finds the latest patch of its line (`update_max`), which is a
   * different version.
   */
  lemma MinorOfRemovedPatch(srcs: seq<Source>, i: nat, k: Key) returns (latest: string)
    requires ValidSources(srcs) && WellBehavedSources(srcs)
    requires i < |srcs| && k.Patch? && InCatalog(srcs[i].range, k) && Render(k) in srcs[i].removed
    requires Render(Minor(k.major, k.minor)) !in srcs[i].removed
    ensures latest == Render(Patch(k.major, k.minor, srcs[i].range.updateMax.value))
    ensures Lookup(srcs, Minor(k.major, k.minor)) == Some(latest)
    ensures latest != Render(k)
  {
    var mk, r := Minor(k.major, k.minor), srcs[i].range;
    latest := Render(Patch(k.major, k.minor, r.updateMax.value));
    assert latest !in srcs[i].removed;
    assert Keeps(srcs[i], mk) && Target(r, mk) == latest;
    forall j | i < j < |srcs|
      ensures !Keeps(srcs[j], mk)
    {
      assert DisjointLines(r, srcs[j].range);
    }
    LookupWinner(srcs, mk, i);
  }

  /** Every entry of the merged table is the entry of one of the generated ranges. */
  lemma {:induction false} MergeValuesFrom(srcs: seq<Source>)
    requires ValidSources(srcs)
    ensures forall s :: s in Merge(srcs) ==>
      exists i :: 0 <= i < |srcs| && s in SupportedVersions(srcs[i].range) && Merge(srcs)[s] == SupportedVersions(srcs[i].range)[s]
    decreases |srcs|
  {
    if |srcs| > 0 {
      var n := |srcs| - 1;
      var prefix := srcs[..n];
      MergeValuesFrom(prefix);
      assert Merge(srcs) == Merge(prefix) + (SupportedVersions(srcs[n].range) - srcs[n].removed);
      forall s | s in Merge(srcs)
        ensures exists i :: 0 <= i < |srcs| && s in SupportedVersions(srcs[i].range) && Merge(srcs)[s] == SupportedVersions(srcs[i].range)[s]
      {
        if s in SupportedVersions(srcs[n].range) - srcs[n].removed {
          assert s in SupportedVersions(srcs[n].range) && Merge(srcs)[s] == SupportedVersions(srcs[n].range)[s];
        } else {
          assert s in Merge(prefix) && Merge(srcs)[s] == Merge(prefix)[s];
          var i :| 0 <= i < n && s in SupportedVersions(prefix[i].range) && Merge(prefix)[s] == SupportedVersions(prefix[i].range)[s];
          assert prefix[i] == srcs[i];
        }
      }
    }
  }

  /** Merging well-behaved sources gives a table whose every value resolves to itself. */
  lemma {:induction false} MergedTableSelfResolving(srcs: seq<Source>)
    requires ValidSources(srcs) && WellBehavedSources(srcs)
    ensures SelfResolving(Merge(srcs))
    decreases |srcs|
  {
    if |srcs| > 0 {
      var n := |srcs| - 1;
      var prefix, last := srcs[..n], srcs[n];
      assert WellBehavedSources(prefix);
      MergedTableSelfResolving(prefix);
      DenylistSparesTargets(last.range, last.removed);
      var part := SupportedVersions(last.range) - last.removed;
      MergeValuesFrom(prefix);
      forall s | s in Merge(prefix) ensures Merge(prefix)[s] !in part {
        var i :| 0 <= i < n && s in SupportedVersions(prefix[i].range) && Merge(prefix)[s] == SupportedVersions(prefix[i].range)[s];
        DisjointRangesKeepTargets(srcs[i].range, last.range);
      }
      MergeSelfResolving(Merge(prefix), part);
    }
  }

  /** Without suffixes, every value of a merged table extends the fields of its key. */
  lemma {:induction false} MergedTableRefines(srcs: seq<Source>)
    requires ValidSources(srcs)
    requires forall i :: 0 <= i < |srcs| ==> Suffix(srcs[i].range) == ""
    ensures Refines(Merge(srcs))
    decreases |srcs|
  {
    if |srcs| > 0 {
      var n := |srcs| - 1;
      MergedTableRefines(srcs[..n]);
      CatalogRefines(srcs[n].range);
    }
  }

  /**
   * Resolving against a merge of well-behaved sources is stable: a returned
   * version resolves to itself again and agrees with every field requested.
   */
  lemma MergedResolutionStable(prefix: string, databaseName: string, srcs: seq<Source>, requestedVersion: string)
    requires ValidSources(srcs) && WellBehavedSources(srcs)
    ensures var r := GetSupportedVersionToUse(prefix, databaseName, Merge(srcs), requestedVersion);
      r.Ok? ==> && GetSupportedVersionToUse(prefix, databaseName, Merge(srcs), r.value) == r
                && RequestedComponents(requestedVersion) <= Split(r.value)
  {
    MergedTableSelfResolving(srcs);
    MergedTableRefines(srcs);
    ResolveIdempotent(prefix, databaseName, Merge(srcs), requestedVersion);
    ResolvedVersionExtendsRequest(prefix, databaseName, Merge(srcs), requestedVersion);
  }

  // ---------------------------------------------------------------------
  // Removals only matter for the keys removed.

  /** The same sources with nothing removed. */
  function Unfiltered(srcs: seq<Source>): (u: seq<Source>)
    ensures |u| == |srcs|
    ensures forall i :: 0 <= i < |srcs| ==> u[i] == Source(srcs[i].range, {})
  {
    if |srcs| == 0 then []
    else Unfiltered(srcs[..|srcs| - 1]) + [Source(srcs[|srcs| - 1].range, {})]
  }

  /** A key no source removes is present, and maps to the same version, with or without the removals. */
  lemma {:induction false} MergeOutsideRemoved(srcs: seq<Source>, s: string)
    requires ValidSources(srcs)
    requires forall i :: 0 <= i < |srcs| ==> s !in srcs[i].removed
    ensures s in Merge(srcs) <==> s in Merge(Unfiltered(srcs))
    ensures s in Merge(srcs) ==> Merge(srcs)[s] == Merge(Unfiltered(srcs))[s]
    decreases |srcs|
  {
    if |srcs| > 0 {
      var n := |srcs| - 1;
      var u := Unfiltered(srcs);
      MergeOutsideRemoved(srcs[..n], s);
      assert u[..n] == Unfiltered(srcs[..n]);
      assert SupportedVersions(u[n].range) - u[n].removed == SupportedVersions(srcs[n].range) - {};
    }
  }
}
