# Database versions, domain checks and the AWS MySQL service

This project models three parts of the engine that deploys cloud environments:

- **Version catalogs.** These come from `src/cloud_provider/utilities.rs`.
  - `generate_supported_version` builds, for one major line, the map from every
    version a user may request (`"10"`, `"10.3"`, `"10.3.0"`) to the full version
    that is deployed.
  - `get_version_number` splits a requested version into its fields.
  - `get_supported_version_to_use` resolves a request against such a map.
  - The self-hosted tables of PostgreSQL, MySQL, MongoDB and Redis are built
    from these pieces.
- **Domain readiness check.** `check_domain_for` polls DNS for each domain of
  an environment. It reports progress events and never fails once its
  resolver exists.
- **The MySQL service** of `src/cloud_provider/aws/databases/mysql.rs`:
  - `get_mysql_version`, for RDS (with the versions RDS withdrew) and for
    self-hosted;
  - the helm release name and the template context;
  - the order of the external steps of `on_create` and `delete`, which stop
    at the first step that fails;
  - the remaining hooks.

How the modules fit together:

- `Strings` has the digit rendering of numbers, `split('.')` and `join(".")`.
- `VersionCatalog` has the generator and the resolver.
  - The generator is a method with loops. It is proved equal to a recursive
    function that follows its insertion order, and that function is
    described key by key (`CatalogReference`).
- `VersionTables` models a table merged from several generated maps with
  `extend`. Later maps win, and some versions may be removed first.
- `MysqlVersions` and `SelfHostedVersions` instantiate these with the
  constants of the source.
- `DomainCheck` and `MysqlService` model the side-effecting code.
  - Every external call is an oracle outcome.
  - The steps that run are returned as a log.

Two behaviours of the code worth noting:

- **Minor keys without suffix.** When a range spans several minor versions,
  the code inserts each minor key (such as `"10.3"` of the PostgreSQL 10 range
  10.1 to 10.14) with the latest patch but without the version suffix
  (utilities.rs:183-191). A range with a single minor version appends the
  suffix to its minor key (utilities.rs:164-169). The model follows the code.
- **Message prefix.** The error text that `get_supported_version_to_use` builds
  in utilities.rs is `"<name> <version> version is not supported"`. But the
  tests of mysql.rs expect `"this RDS MySQL 8.0.18 version is not supported"`,
  because mysql.rs resolves through a module of the same name that is not part
  of this model. The model therefore takes the prefix as a parameter:
  - `""` for the self-hosted tables of utilities.rs;
  - `"this "` for `get_mysql_version`.

## Model

| member | source | states |
|---|---|---|
| Strings.JoinSplit | src/cloud_provider/utilities.rs:230-252 | joining the `.`-separated fields of a version string gives back the string |
| Strings.SplitJoin | src/cloud_provider/utilities.rs:230-252 | splitting the join of dot-free fields gives back the fields |
| Strings.NatToStringInjective | src/cloud_provider/utilities.rs:166-211 | distinct numbers are rendered as distinct digit strings, so version keys do not collide |
| Strings.Cut | src/cloud_provider/aws/databases/mysql.rs:65-67 | the truncation is the prefix of its input of length `min(|s|, n)`: short inputs whole, longer ones their first `n` characters |
| VersionCatalog.SplitRender | src/cloud_provider/utilities.rs:166-217 | a rendered key splits on `.` into exactly its one to three numeric fields |
| VersionCatalog.RenderInjective | src/cloud_provider/utilities.rs:166-217 | two keys that render to the same string are the same key |
| VersionCatalog.PatchRunKeys | src/cloud_provider/utilities.rs:170-178 | the patch loop inserts exactly the keys `M.m.u` with `u` in the update range |
| VersionCatalog.PatchRunEntries | src/cloud_provider/utilities.rs:170-178 | each patch key maps to itself followed by the suffix |
| VersionCatalog.MinorRunsKeys | src/cloud_provider/utilities.rs:181-203 | the multi-minor loop inserts exactly the keys `M.m` and `M.m.u` of the ranges |
| VersionCatalog.MinorRunsValues | src/cloud_provider/utilities.rs:181-203 | `M.m` maps to `M.m.<update_max>` without suffix, and `M.m.u` to itself with the suffix |
| VersionCatalog.MinorRunsEntries | src/cloud_provider/utilities.rs:181-203 | every key of the multi-minor part comes from a key of the ranges |
| VersionCatalog.MinorOnlyRunKeys | src/cloud_provider/utilities.rs:207-213 | without update bounds, exactly the keys `M.m` of the minor range are inserted |
| VersionCatalog.MinorOnlyRunEntries | src/cloud_provider/utilities.rs:207-213 | without update bounds each `M.m` maps to itself with the suffix |
| VersionCatalog.CatalogReference | src/cloud_provider/utilities.rs:141-220 | a key is in the generated map iff it lies in the range, its value is the declared target, and every entry comes from such a key |
| VersionCatalog.InsertUpdates | src/cloud_provider/utilities.rs:170-178 | the loop adds exactly the patch run of one minor version to the map it is given |
| VersionCatalog.GenerateSupportedVersion | src/cloud_provider/utilities.rs:141-220 | the map the loops build equals the insertion-order specification of the range |
| VersionCatalog.RequestedComponents | src/cloud_provider/utilities.rs:230-252 | a parsed request has one to three fields |
| VersionCatalog.GetVersionNumber | src/cloud_provider/utilities.rs:230-253 | parsing always succeeds; a patch implies a minor, and the fields are the first dot-separated fields of the input |
| VersionCatalog.GetSupportedVersionToUse | src/cloud_provider/utilities.rs:85-138 | the result is Ok iff the key rebuilt from the request's fields is in the map, Ok carries that entry, and Err carries the "not supported" text naming the database and the request |
| VersionCatalog.LookupKeyIsRequest | src/cloud_provider/utilities.rs:85-138 | a request with at most three fields is looked up as written; a longer one is looked up by its first three fields |
| VersionCatalog.ResolveRenderedKey | src/cloud_provider/utilities.rs:85-138 | a request that is a rendered key resolves to that key's entry, or to the error naming it |
| VersionCatalog.ResolveExtraField | src/cloud_provider/utilities.rs:96-111 | a fourth field after a patch version is ignored by the lookup but kept in the error message |
| VersionCatalog.ResolveIdempotent | src/cloud_provider/utilities.rs:85-138 | on a self-resolving map, resolving a resolved version gives it back |
| VersionCatalog.ResolvedVersionExtendsRequest | src/cloud_provider/utilities.rs:85-138 | on a refining map, the resolved version starts with the requested fields |
| VersionCatalog.TargetIsKey | src/cloud_provider/utilities.rs:161-217 | without suffix, every target is the rendering of a key that extends the key it serves; for a well-formed range that key is itself in the range and maps to itself |
| VersionCatalog.CatalogSelfResolving | src/cloud_provider/utilities.rs:141-220 | a generated map without suffix sends every value to itself |
| VersionCatalog.CatalogRefines | src/cloud_provider/utilities.rs:141-220 | in a generated map without suffix, every value extends its key's fields |
| VersionCatalog.DisjointRangesKeepTargets | src/cloud_provider/utilities.rs:141-220 | a range of another minor line cannot overwrite the targets of a range |
| VersionCatalog.DenylistSparesTargets | src/cloud_provider/aws/databases/mysql.rs:609-630 | removing versions other than each minor's latest patch keeps the map self-resolving |
| VersionCatalog.MergeSelfResolving | src/cloud_provider/aws/databases/mysql.rs:609-630 | extending a self-resolving map by one that does not overwrite its targets stays self-resolving |
| VersionTables.MergeSnoc | src/cloud_provider/aws/databases/mysql.rs:609-630 | one more `extend` adds the new generated map, minus its removed versions, on top of the table |
| VersionTables.ExtendUnfiltered | src/cloud_provider/utilities.rs:19-29 | extending the table by a freshly generated map is the merge with one more unfiltered source |
| VersionTables.MergeLookup | src/cloud_provider/aws/databases/mysql.rs:609-644 | a key is in the merged table iff a source keeps it, with the value of the last such source |
| VersionTables.LookupThree | src/cloud_provider/aws/databases/mysql.rs:608-644 | with three sources the third wins over the second, and the second over the first |
| VersionTables.LookupWinner | src/cloud_provider/utilities.rs:54-68 | the last source that keeps a key decides its value |
| VersionTables.LookupNone | src/cloud_provider/utilities.rs:14-71 | a key no source keeps is absent |
| VersionTables.ResolveInMerge | src/cloud_provider/aws/databases/mysql.rs:647-651 | resolving a rendered key in a merged table yields the winning target or the "not supported" error |
| VersionTables.MinorOfRemovedPatch | src/cloud_provider/aws/databases/mysql.rs:609-630 | when a source removes a patch but keeps its minor key, that key finds `M.m.<update_max>` of the source's range, a version other than the removed one |
| VersionTables.MergeValuesFrom | src/cloud_provider/aws/databases/mysql.rs:608-644 | every value of the merged table is the value one of the generated maps gave that key |
| VersionTables.MergedTableSelfResolving | src/cloud_provider/aws/databases/mysql.rs:608-644 | a merge of well-behaved sources sends every value to itself |
| VersionTables.MergedTableRefines | src/cloud_provider/aws/databases/mysql.rs:608-644 | a merge of suffix-free sources maps every key to a version that extends it |
| VersionTables.MergedResolutionStable | src/cloud_provider/utilities.rs:14-71 | on a well-behaved merged table, a resolved version resolves to itself and extends the request |
| VersionTables.MergeOutsideRemoved | src/cloud_provider/aws/databases/mysql.rs:604-645 | for a version no source removes, the filtered and unfiltered merges agree |
| MysqlVersions.RdsTable | src/cloud_provider/aws/databases/mysql.rs:604-630 | the RDS table is the 5.6, 5.7 and 8.0 maps, in that order, each without its withdrawn versions |
| MysqlVersions.SelfHostedTable | src/cloud_provider/aws/databases/mysql.rs:631-645 | the self-hosted table is the 5.6, 5.7 and 8.0 maps in that order |
| MysqlVersions.GetMysqlVersion | src/cloud_provider/aws/databases/mysql.rs:597-652 | the built table and resolution equal the specification for both deployment modes |
| MysqlVersions.ResolveMysqlKey | src/cloud_provider/aws/databases/mysql.rs:597-652 | a rendered key resolves to the target of the last line keeping it, or to the error naming RDS MySQL or MySQL |
| MysqlVersions.ManagedMajorResolvesToLatest | src/cloud_provider/aws/databases/mysql.rs:662 | RDS resolves "8" to "8.0.21" |
| MysqlVersions.ManagedMinorResolvesToLatest | src/cloud_provider/aws/databases/mysql.rs:663 | RDS resolves "8.0" to "8.0.21" |
| MysqlVersions.ManagedOfferedPatch | src/cloud_provider/aws/databases/mysql.rs:664 | RDS resolves "8.0.16" to itself |
| MysqlVersions.ManagedRemovedPatch | src/cloud_provider/aws/databases/mysql.rs:665-671 | RDS rejects "8.0.18" with "this RDS MySQL 8.0.18 version is not supported" |
| MysqlVersions.ResolveMysqlExtraField | src/cloud_provider/aws/databases/mysql.rs:647-651 | a fourth field after a patch version changes neither the verdict nor the resolved version |
| MysqlVersions.SelfHostedMajorResolvesTo57 | src/cloud_provider/aws/databases/mysql.rs:673 | self-hosted resolves "5" to "5.7.31", because 5.7 is extended after 5.6 |
| MysqlVersions.SelfHostedMinorResolvesToLatest | src/cloud_provider/aws/databases/mysql.rs:674 | self-hosted resolves "5.7" to "5.7.31" |
| MysqlVersions.SelfHostedPatchResolvesToItself | src/cloud_provider/aws/databases/mysql.rs:675 | self-hosted resolves "5.7.31" to itself |
| MysqlVersions.SelfHostedUnknownLine | src/cloud_provider/aws/databases/mysql.rs:676-682 | self-hosted rejects "1.0" with "this MySQL 1.0 version is not supported" |
| MysqlVersions.MysqlSourcesWellBehaved | src/cloud_provider/aws/databases/mysql.rs:608-644 | no withdrawn version is the latest patch of its minor, and the three lines do not overwrite each other's targets |
| MysqlVersions.MysqlTablesWellBehaved | src/cloud_provider/aws/databases/mysql.rs:604-645 | both tables send every value to itself and map every key to a version that extends it |
| MysqlVersions.MysqlResolutionStable | src/cloud_provider/aws/databases/mysql.rs:597-652 | a version returned by `get_mysql_version` resolves to itself and extends the request, in both modes |
| MysqlVersions.ModesAgreeOutsideRemoved | src/cloud_provider/aws/databases/mysql.rs:604-645 | outside the withdrawn versions, RDS and self-hosted accept the same requests with the same result |
| MysqlVersions.RemovedArePatches | src/cloud_provider/aws/databases/mysql.rs:610-629 | every withdrawn RDS version is a full patch version |
| MysqlVersions.RemovedVersionRejectedByRds | src/cloud_provider/aws/databases/mysql.rs:610-629 | every withdrawn version is rejected by RDS with the RDS MySQL message |
| MysqlVersions.RemovedPatchMinorStillResolves | src/cloud_provider/aws/databases/mysql.rs:609-630 | the minor key of every withdrawn RDS patch still resolves on RDS, to the latest patch of its line (`update_max` of its range), which differs from the withdrawn one, resolves to itself and extends the minor key |
| MysqlVersions.ManagedMinorOfDenylistedLine | src/cloud_provider/aws/databases/mysql.rs:609-615 | on RDS "5.6" still gives "5.6.49", although versions of the 5.6 line are withdrawn |
| MysqlVersions.RemovedVersionOfferedSelfHosted | src/cloud_provider/aws/databases/mysql.rs:634-644 | every version withdrawn by RDS is still offered self-hosted, as itself |
| SelfHostedVersions.GetSelfHostedPostgresVersion | src/cloud_provider/utilities.rs:14-32 | the table built from the 10, 11 and 12 lines and its resolution equal the specification |
| SelfHostedVersions.GetSelfHostedMysqlVersion | src/cloud_provider/utilities.rs:34-47 | the table built from the 5.7 and 8.0 lines and its resolution equal the specification |
| SelfHostedVersions.GetSelfHostedMongodbVersion | src/cloud_provider/utilities.rs:49-71 | the table built from the 3.6, 4.0, 4.2 and 4.4 lines and its resolution equal the specification |
| SelfHostedVersions.GetSelfHostedRedisVersion | src/cloud_provider/utilities.rs:73-83 | the four fixed entries and their resolution equal the specification |
| SelfHostedVersions.PostgresMajorResolvesToLatest | src/cloud_provider/utilities.rs:19-21 | "10" resolves to "10.14.0" |
| SelfHostedVersions.PostgresMinorResolvesToItsPatch | src/cloud_provider/utilities.rs:19-21 | "10.3" resolves to "10.3.0" |
| SelfHostedVersions.PostgresMinorBelowRangeRejected | src/cloud_provider/utilities.rs:27-31 | "12.1" lies below the 12 line's minor range and is rejected with the Postgresql message |
| SelfHostedVersions.MysqlMinor56Rejected | src/cloud_provider/utilities.rs:34-47 | self-hosted MySQL of utilities.rs has no 5.6 line and rejects "5.6" |
| SelfHostedVersions.MysqlMajorResolvesToLatest | src/cloud_provider/utilities.rs:38-40 | "5" resolves to "5.7.31" |
| SelfHostedVersions.MongoMajorResolvesToLastRange | src/cloud_provider/utilities.rs:58-68 | "4" resolves to "4.4.2", the line extended last |
| SelfHostedVersions.MongoMinorResolvesToLatest | src/cloud_provider/utilities.rs:54-56 | "3.6" resolves to "3.6.21" |
| SelfHostedVersions.RedisMajorResolves | src/cloud_provider/utilities.rs:77 | "6" resolves to "6.0.9" |
| SelfHostedVersions.RedisMinorResolves | src/cloud_provider/utilities.rs:80 | "5.0" resolves to "5.0.10" |
| SelfHostedVersions.RedisReturnedVersionRejected | src/cloud_provider/utilities.rs:73-83 | the Redis table is not self-resolving: "6" gives "6.0.9", which is itself rejected |
| SelfHostedVersions.RedisRefines | src/cloud_provider/utilities.rs:77-80 | every hand-written Redis entry starts with the fields of its key |
| SelfHostedVersions.RedisResolutionExtendsRequest | src/cloud_provider/utilities.rs:73-83 | a version Redis resolution returns agrees with every field of the request |
| SelfHostedVersions.SelfHostedSourcesWellBehaved | src/cloud_provider/utilities.rs:14-71 | the PostgreSQL, MySQL and MongoDB lines never overwrite each other's targets |
| SelfHostedVersions.SelfHostedResolutionStable | src/cloud_provider/utilities.rs:14-71 | for PostgreSQL, MySQL and MongoDB, a resolved version resolves to itself and extends the request |
| DomainCheck.FirstSuccessFromSpec | src/cloud_provider/utilities.rs:289-309 | the retry loop stops at the first successful attempt, or after all attempts fail |
| DomainCheck.FailuresSpec | src/cloud_provider/utilities.rs:289-309 | the failed attempts are a prefix of the attempts; fewer than all iff the domain resolves |
| DomainCheck.FailuresUnique | src/cloud_provider/utilities.rs:289-309 | any count of leading failures followed by success or exhaustion is the failure count |
| DomainCheck.DomainLogShape | src/cloud_provider/utilities.rs:278-339 | one domain yields a start event, one progress event per failed lookup, then "ready" iff it resolved and the not-critical warning otherwise |
| DomainCheck.ChecksLogLength | src/cloud_provider/utilities.rs:278-340 | n domains yield between 2n and n·(attempts+2) events |
| DomainCheck.JoinWithDot | src/cloud_provider/utilities.rs:265 | the separator join used for the domain list agrees with the `.` join of version fields on every non-empty list |
| DomainCheck.DefaultRetries | src/cloud_provider/utilities.rs:289-309 | with the source's 100 retries, the last event of a domain is the not-critical warning exactly when all 101 lookups fail, and n domains emit between 2n and 103·n events |
| DomainCheck.CheckDomainFor | src/cloud_provider/utilities.rs:255-344 | no resolver gives the internal error naming all domains and no events; otherwise the result is Ok and the events are the per-domain logs in order |
| MysqlService.HelmReleaseName | src/cloud_provider/aws/databases/mysql.rs:65-67 | the release name is a prefix of "mysql-<id>": all of it when that fits in 50 characters, exactly its first 50 characters otherwise |
| MysqlService.HelmReleaseNamePrefix | src/cloud_provider/aws/databases/mysql.rs:65-67 | every release name starts with "mysql-", and it is "mysql-<id>" iff the id has at most 44 characters |
| MysqlService.NamespaceLabels | src/cloud_provider/aws/databases/mysql.rs:404-413 | a `ttl` label with the expiration exists iff an expiration is configured |
| MysqlService.FirstFailure | src/cloud_provider/aws/databases/mysql.rs:360-439 | every step before the position passes, and the step at it fails |
| MysqlService.Executed | src/cloud_provider/aws/databases/mysql.rs:360-439 | the steps run are a prefix of the plan |
| MysqlService.ExecutedStopsAtFailure | src/cloud_provider/aws/databases/mysql.rs:360-439 | a plan succeeds iff no step fails, then all steps run; otherwise the last step run is the failing one and its error is the result |
| MysqlService.TeraContext | src/cloud_provider/aws/databases/mysql.rs:69-142 | the context holds exactly the default keys and the fixed keys, plus the kubeconfig path when found and the expiration when set; the expiration, database id and namespace carry their values |
| MysqlService.CreateManaged | src/cloud_provider/aws/databases/mysql.rs:297-345 | the three renders then terraform apply run in order, stop at the first failure, and its error is the result |
| MysqlService.CreateSelfHosted | src/cloud_provider/aws/databases/mysql.rs:347-472 | steps up to helm stop at the first failure; a release not deployed is an internal error without a pod check; otherwise Ok iff the pod is ready |
| MysqlService.OnCreate | src/cloud_provider/aws/databases/mysql.rs:295-476 | each deployment target runs its own creation sequence with the outcome above |
| MysqlService.DeleteManaged | src/cloud_provider/aws/databases/mysql.rs:148-222 | the four renders stop at the first failure; then destroy, and the tfstate secret is deleted only after a successful destroy; a failed destroy is an internal error carrying its message |
| MysqlService.DeleteSelfHosted | src/cloud_provider/aws/databases/mysql.rs:223-237 | one stateless clean-up of the helm release, whose failure is the result |
| MysqlService.OnDelete | src/cloud_provider/aws/databases/mysql.rs:144-241 | each deployment target runs its own deletion sequence with the outcome above |
| MysqlService.ExternalNameRenderedTwiceOnDelete | src/cloud_provider/aws/databases/mysql.rs:171-197 | deletion renders the external-name chart twice and creation once; every other chart is rendered equally often |
| MysqlService.RunHook | src/cloud_provider/aws/databases/mysql.rs:478-595 | the check, error and pause hooks return Ok; exactly the clone, upgrade, downgrade, backup and restore hooks are unimplemented |

## Left out

- DNS lookups, the resolver, and the 3-second sleeps of `check_domain_for`:
  - lookups are a function (domain position, attempt) → resolved;
  - whether the resolver could be built is a parameter;
  - the number of retries is a parameter, and `DomainCheck.DnsRetries` holds the source's 100.
- Listener transport and the `info!`/`warn!`/`error!` logging: events are returned as a log instead.
- Terraform, helm, kubectl, template rendering and kubeconfig retrieval: each is an oracle outcome (`MysqlService.Oracle`). The files written and the commands' arguments are not modelled.
- `get_tfstate_suffix`, `get_tfstate_name` and `default_tera_context`: not part of this model. Their values come from the oracle.
- Template context values: only the expiration, database id and namespace values are stated. For every other key, only its presence is stated.
- `MysqlService.TeraContext`: the kubeconfig path is inserted when the lookup returns one; the downcast of the cloud provider to AWS is not modelled.
- `Strings.Cut`: `crate::string::cut` is not part of this model. It is taken to keep the first `n` characters.
- The `aws::databases::utilities` module that mysql.rs imports (src/cloud_provider/aws/databases/mysql.rs:3-6) is not part of this model:
  - its `generate_supported_version` is taken to be the one of utilities.rs:141-220, which `MysqlVersions` uses;
  - its `get_supported_version_to_use` is taken to be the one of utilities.rs:85-138 with the message prefix `"this "` that the tests of mysql.rs expect.
- `engine_error_scope` of services is not part of this model. The service scope (id and name) follows the shape used in `src/container_registry/mod.rs:32-41`.
- Integer widths:
  - the `i32` and `u32` arguments of the source are unbounded naturals;
  - negative versions, overflow and a `u32` expiration above 2^32 are not modelled.
- `VersionCatalog.GenerateSupportedVersion`: requires `update_max` whenever `update_min` is given. The source panics on `update_max.unwrap()` otherwise (utilities.rs:162); every caller passes both, and the panic is not modelled.
- `VersionCatalog.GetVersionNumber`: its error branch cannot be reached, since splitting always yields a first field. The model always returns Ok.
- `MysqlService.RunHook`: `unimplemented!()` panics; the model returns `None` for those hooks.
- The `Service` and `Database` getters of mysql.rs (name, version, ports, selectors): fields of `MysqlService.MySql`, not operations.
- `test_utilities/src/scaleway.rs` and the container registry: outside the modelled core.
- The progress messages of `DomainCheck` are the `Message` datatype, with `Text` giving their wording. Byte-level formatting of the events is not modelled.
