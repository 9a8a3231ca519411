# componator-aws-providers, modelled in Dafny

This project models the decision logic of the component providers of
componator-aws-providers. These are Go Kubernetes controllers that claim
`Component` resources and deploy them as Helm releases, raw manifests,
ConfigMap exports, IAM roles, IAM policies, RDS instances or pushed secrets.
The calls into Helm, Kubernetes and AWS are not modelled. Their answers
enter as parameters: a decode outcome for each JSON document, function-typed
"environment" records for cluster and AWS replies, and an explicit clock.
The model covers what the providers decide from those answers, and it
proves properties of those decisions.

One Dafny module per source area:

- `Wrappers`, `Strings`, `Json` and `OperationResults` are the shared
  vocabulary. They hold `Option`/`Result`, string helpers (split/join,
  lower-casing, lexicographic order, sorted keys), a JSON value with its
  raw text, the `encoding/json` field-reading rules, and the action and
  check results providers return.
- `Components`, `BaseController`, `Predicates` model the generic component
  reconciler: phases Pending, Claimed, Deploying, Ready, Failed and
  Terminating; finalizers; the handler predicate.
- `HelmController` models the Helm-specific claiming and deletion protocols
  and `Reconcile`. `HelmReleaseConfig` and `HelmSourceConfig` model config
  defaulting and source-type dispatch.
- `HelmIndexCache` models the LRU+TTL repository-index cache as a class over
  a map, with an explicit clock. `ChartIndex` models chart lookup in an
  index and the freshness rule.
- `OciReference`, `OciChart`, `OciSource` model the `oci://` reference
  parser and validator, and credential selection.
- `SourceDetect`, `SourceRegistry` model two-stage source-type detection
  and the factory registries.
- `IamRole`, `IamRoleConfig`, `IamPolicy`, `IamPolicyConfig`: the
  attachment reconciler, tags, trust-policy updates, policy versions
  (pruning and bulk deletion), and config defaulting.
- `SecretPushConfig`: secret-push validation, enum resolution and defaults.
- `RdsPackageConfig`, `RdsControllerConfig`, `RdsConversion`,
  `RdsInstance`, `RdsOperations`, `RdsHealth`: RDS defaults, pointer
  helpers, the package's AWS layer, and the controller's deploy, check and
  upgrade decisions. The health classification belongs here too.
- `ConfigReader`: the ConfigMap export fold and the ConfigMap watch.
- `Manifest`, `ManifestOps`: manifest validation and labelling;
  apply/deploy bookkeeping, readiness, reverse best-effort deletion.

Mutable objects are classes whose methods are proved against
specification functions of the state before the call:

- the cache;
- the operations objects (their status);
- configs defaulted in place;
- component reconcilers.

The lemmas state what the source promises about those functions.

Some functions exist twice in the repository, once in a package-level
directory and once under `internal/controller`. This holds for
`reconcilePolicyAttachments` and the IAM policy helpers, and for the Helm
claiming and deletion protocols in `claiming_protocol.go`,
`deletion_protocol.go` and `controller.go`. Each copy has the same logic
apart from its receiver, and one model covers both. The table cites
whichever copy is clearer.

## Model

| member | source | states |
|---|---|---|
| BaseController.HandleCreation | internal/controller/base/controller.go:105-214 | the component, result and call sequence after one creation pass equal `BaseController.Creation` of the component before it; a claim records the Claimed phase, the handler as claimant and the pass's clock reading |
| BaseController.RunOperation | internal/controller/base/controller.go:130-149 | the Deploying status is written before the deploy or upgrade runs; the outcome equals `BaseController.StartOperation` |
| BaseController.HandleDeletion | internal/controller/base/controller.go:217-288 | the component, result and calls after one deletion pass equal `BaseController.Deletion` of the component before it |
| BaseController.Reconcile | internal/controller/base/controller.go:85-102 | a component with a deletion timestamp takes the deletion path, any other the creation path |
| BaseController.CanClaimFailureChangesNothing | internal/controller/base/controller.go:111-114 | a rejected claim returns the "Component not for us" error, makes no call and changes nothing |
| BaseController.ClaimDoesNotDeploy | internal/controller/base/controller.go:116-127 | claiming adds only the handler finalizer and the claim (Claimed phase, the handler as claimant, the pass's clock reading as claim time), and the same pass makes no operation call |
| BaseController.DeployingBeforeOperation | internal/controller/base/controller.go:130-140 | every deploy or upgrade call in a pass comes right after a status write that set Deploying |
| BaseController.DeployOutcome | internal/controller/base/controller.go:139-149 | from Claimed, a failed deploy leaves the component Failed with the error, and a successful one requeues after the status-check delay |
| BaseController.DeployingWriteFailure | internal/controller/base/controller.go:134-138 | a failed Deploying write requeues after the error delay and never calls the operation |
| BaseController.DeploymentCheckOrder | internal/controller/base/controller.go:153-182 | a deploying component's check is read in a fixed order: I/O error, then failure, then ready, then in progress |
| BaseController.SettledComponent | internal/controller/base/controller.go:184-211 | a Ready or Failed component is left alone unless dirty, and a dirty one is upgraded |
| BaseController.UnexpectedPhase | internal/controller/base/controller.go:213 | a claimed component in any other phase yields the unexpected-phase error and is not changed |
| BaseController.CreationMoves | internal/controller/base/controller.go:105-214 | a creation pass only moves the phase forward, never releases a finalizer and never starts termination |
| BaseController.CanDeleteFailureWaits | internal/controller/base/controller.go:223-227 | without the deletion go-ahead, the pass requeues after the default delay and changes nothing |
| BaseController.TerminatingBeforeDelete | internal/controller/base/controller.go:230-241 | every delete call comes right after the write that set Terminating |
| BaseController.CleanupStartKeepsFinalizer | internal/controller/base/controller.go:230-251 | starting the cleanup keeps the finalizer and requeues for a check, even when `Delete` fails |
| BaseController.FinalizerReleasedOnlyWhenDeleted | internal/controller/base/controller.go:253-288 | the handler's finalizer is released only by a pass that found the cleanup complete, and other finalizers are never touched |
| BaseController.PermanentDeletionFailure | internal/controller/base/controller.go:265-270 | a permanent cleanup failure is recorded in the status message and keeps the finalizer |
| BaseController.CompletedCleanup | internal/controller/base/controller.go:278-287 | a completed cleanup removes exactly the handler's finalizer |
| Components.AddFinalizer | internal/controller/helm/controller.go:149 | the finalizer is present afterwards, nothing else is added, and it is appended only when it was missing |
| Components.RemoveFinalizer | internal/controller/helm/controller.go:206 | the finalizer is gone afterwards, every other finalizer stays, and a list without it is unchanged |
| Components.RemoveKeepsOrder | internal/controller/helm/controller.go:206 | two remaining finalizers keep their relative order after a removal |
| Components.AddThenRemove | internal/controller/helm/controller.go:149 | adding a missing finalizer and removing it again gives back the original list |
| Components.RemoveAppended | internal/controller/helm/controller.go:206 | removing a finalizer that was appended to a list without it gives back that list |
| HelmController.DecodeHelmConfig | internal/controller/helm/controller.go:104-107 | a configuration decodes only when its text is a JSON object |
| HelmController.ParseHelmConfig | internal/controller/helm/controller.go:99-124 | an accepted configuration has a non-empty repository URL, repository name, chart name and chart version; a missing or undecodable one is an error |
| HelmController.ParseHelmConfigOrder | internal/controller/helm/controller.go:109-123 | the first missing required field, in the order URL, repository name, chart name, version, is the one reported; a complete configuration is returned as decoded |
| HelmController.ParseHelmConfigErrors | internal/controller/helm/controller.go:100-107 | a missing configuration gives the "no config" error and undecodable text the unmarshal error |
| HelmController.GenerateReleaseName | internal/controller/helm/controller.go:127-130 | the release name is the namespace, a dash and the name |
| HelmController.ReleaseNameInjective | internal/controller/helm/controller.go:127-130 | for namespaces without a dash, two components with the same release name have the same namespace and name |
| HelmController.FirstDash | internal/controller/helm/controller.go:127-130 | in the release name of a dash-free namespace, the text before the first dash is the namespace |
| HelmController.ReleaseNameExample | internal/controller/helm/controller.go:127-130 | namespace "production" and name "my-app" give release "production-my-app" |
| HelmController.TargetNamespace | internal/controller/helm/controller.go:306-310 | the configured namespace when set, otherwise the component's namespace |
| HelmController.HasAnyHandlerFinalizer | internal/controller/helm/claiming_protocol.go:37-46 | true exactly when some finalizer ends in the lifecycle suffix and does not start with the composition prefix |
| HelmController.FinalizerKinds | internal/controller/helm/controller.go:41 | the Helm finalizer counts as a handler finalizer, the coordination finalizer does not |
| HelmController.ClaimComponent | internal/controller/helm/controller.go:145-171 | the component, result and calls after the claim equal `HelmController.Claim` of the state before it |
| HelmController.RunClaimingProtocol | internal/controller/helm/claiming_protocol.go:83-106 | the component, result and calls after the protocol equal `HelmController.ClaimingProtocol` of the state before it |
| HelmController.HandleDeletion | internal/controller/helm/deletion_protocol.go:36-73 | the component, result and calls after the deletion pass equal `HelmController.Deletion` of the state before it |
| HelmController.Reconcile | internal/controller/helm/controller.go:253-323 | the component, result, calls and planned release after one reconciliation equal `HelmController.ReconcileStep` of the component before it |
| HelmController.ClaimedByUsFirst | internal/controller/helm/controller.go:221-225 | a component already carrying our finalizer is left alone, even though that finalizer is itself a handler finalizer |
| HelmController.OtherHandlerBlocks | internal/controller/helm/controller.go:227-231 | another handler's lifecycle finalizer makes the protocol return with no write and no change |
| HelmController.RdsFinalizerBlocks | internal/controller/helm/controller_test.go:358 | the RDS handler's lifecycle finalizer is a handler finalizer, so it blocks a Helm claim |
| HelmController.FreeComponentClaimed | internal/controller/helm/controller.go:145-171 | a free component is claimed by appending exactly our finalizer and recording the claim in its status |
| HelmController.ClaimOnlyAddsOurs | internal/controller/helm/controller.go:145-171 | after the protocol, the finalizers are the old ones plus possibly ours, and none of the old ones is lost |
| HelmController.DeletionWaitsForCoordination | internal/controller/helm/controller.go:183-186 | while the coordination finalizer is present, deletion requeues after five seconds and changes nothing |
| HelmController.DeletionIgnoresOthers | internal/controller/helm/controller.go:188-214 | deletion of a component that is not ours makes no call and changes nothing |
| HelmController.DeletionReleasesOnlyOurs | internal/controller/helm/controller.go:189-211 | deleting our component sets it Terminating and removes only our finalizer |
| HelmController.OtherHandlersIgnored | internal/controller/helm/controller.go:263-266 | a component of another handler is ignored with no call |
| HelmController.ConfigurationErrorFails | internal/controller/helm/controller.go:289-300 | a claimed component with a bad configuration is marked Failed with the configuration error and no release is planned |
| HelmController.PlanOfClaimedComponent | internal/controller/helm/controller.go:302-310 | a claimed component with a good configuration plans the release named after it in the target namespace |
| HelmReleaseConfig.DurationField | internal/controller/helm/config.go:108-122 | an absent timeout stays absent, and a present one decodes exactly when the duration parser accepts its text |
| HelmReleaseConfig.DecodeHelmConfig | internal/controller/helm/config.go:127-130 | the configuration decodes only from a JSON object |
| HelmReleaseConfig.DefaultedMeaning | internal/controller/helm/config.go:138-157 | after defaulting, both timeouts and namespace management are present; explicit settings are kept, missing timeouts become five minutes and missing namespace management becomes true |
| HelmReleaseConfig.DefaultedIdempotent | internal/controller/helm/config.go:138-157 | defaulting an already defaulted configuration changes nothing |
| HelmReleaseConfig.DefaultedValid | internal/controller/helm/config.go:132-157 | defaulting keeps a valid configuration valid |
| HelmReleaseConfig.ConfigBuilder.ApplyDefaults | internal/controller/helm/config.go:138-157 | filling the fields one at a time leaves the configuration equal to `Defaulted` of the one before |
| HelmReleaseConfig.ResolveHelmConfig | internal/controller/helm/config.go:126-170 | decode errors and validation errors are reported with their own prefixes; the result is Ok exactly for a decodable valid configuration (a repository URL needs a scheme and a host, fragment or opaque part), and then it is that configuration with defaults, still valid |
| HelmReleaseConfig.ExplicitFalseKept | internal/controller/helm/config.go:154-157 | an explicit `manageNamespace: false` is not replaced by the default true |
| HelmReleaseConfig.HostRequired | internal/controller/helm/config.go:69 | a "scheme://host" text passes the url rule exactly when the host is non-empty or the scheme is "file" |
| HelmReleaseConfig.SchemeRequired | internal/controller/helm/config.go:69 | a text without a colon has no scheme and never passes the url rule |
| HelmReleaseConfig.UrlWithHost | internal/controller/helm/config.go:69 | "https://c.io" passes the url rule |
| HelmReleaseConfig.UrlWithoutHost | internal/controller/helm/config.go:69 | "https://" fails the url rule: host, fragment and opaque part are all empty |
| HelmReleaseConfig.UrlWithoutScheme | internal/controller/helm/config.go:69 | "charts" and the empty text fail the url rule |
| HelmSourceConfig.DetectType | internal/controller/helm/source_config.go:108-115 | the type detection succeeds exactly when the text is an object whose `type` is a string or absent |
| HelmSourceConfig.DecodeHttpSource | internal/controller/helm/source_config.go:130-134 | a decoded HTTP section is an HTTP source |
| HelmSourceConfig.DecodeOciSource | internal/controller/helm/source_config.go:142-146 | a decoded OCI section is an OCI source |
| HelmSourceConfig.ResolveSourceConfig | internal/controller/helm/source_config.go:107-157 | a resolved source satisfies every validation rule of its type |
| HelmSourceConfig.TypeRequired | internal/controller/helm/source_config.go:117-119 | an empty or missing type is rejected with the "source type is required" error |
| HelmSourceConfig.ResolvedTypeMatches | internal/controller/helm/source_config.go:128-153 | a resolved source is HTTP exactly when the detected type is "http" and OCI exactly when it is "oci", and its `GetType` is the detected type |
| HelmSourceConfig.UnsupportedType | internal/controller/helm/source_config.go:154-156 | any other type is rejected as unsupported, naming the type |
| HelmSourceConfig.OciMethodMustBeRegistry | internal/controller/helm/source_config.go:87 | an OCI source whose authentication method is not "registry" is rejected |
| HelmSourceConfig.OciReferenceValidated | internal/controller/helm/source_config.go:69 | a resolved OCI source carries a chart reference the OCI reference rule accepts |
| Predicates.PredicateMeaning | internal/controller/predicates.go:29-41 | an event is accepted exactly when the object it is judged by is a Component whose handler is this handler |
| Predicates.SameDecisionForEveryKind | internal/controller/predicates.go:35-40 | create, update, delete and generic events on the same object get the same decision |
| Predicates.EmptyHandlerRejected | internal/controller/predicates.go:30-33 | a component without a handler, and any object that is not a component, is rejected by a named handler |
| Predicates.HandlersIndependent | internal/controller/predicates.go:30-33 | predicates of two different handlers never both accept an event |
| HelmIndexCache.SetThenGet | internal/controller/helm/source/http/index_cache.go:68-124 | an index stored at time t is found, unchanged, by every lookup at most the time-to-live later |
| HelmIndexCache.ExpiresAfterTtl | internal/controller/helm/source/http/index_cache.go:82-86 | an entry cached more than the time-to-live ago is missed, however recently it was read |
| HelmIndexCache.TouchKeepsLookups | internal/controller/helm/source/http/index_cache.go:88-94 | recording an access changes no lookup's answer; it only affects eviction |
| HelmIndexCache.CleanupKeepsLookups | internal/controller/helm/source/http/index_cache.go:198-210 | dropping expired entries changes no lookup at the same time, keeps exactly the unexpired keys and never grows the table |
| HelmIndexCache.ScanFindsMinimum | internal/controller/helm/source/http/index_cache.go:164-174 | without a key "", the scan ends on an entry accessed no later than any entry it visited |
| HelmIndexCache.ScanCorrectWithoutEmptyKey | internal/controller/helm/source/http/index_cache.go:159-176 | without a key "", the entry the scan deletes is a least recently accessed one |
| HelmIndexCache.ScanAsWrittenEvictsRecent | internal/controller/helm/source/http/index_cache.go:164-175 | with keys "" (read at 1) and "a" (read at 5) visited in that order, the scan chooses "a", which is not the least recently accessed |
| HelmIndexCache.IndexCache.Get | internal/controller/helm/source/http/index_cache.go:68-95 | a disabled cache always misses; otherwise the answer is the stored index unless absent or expired, and a hit records the access time and nothing else |
| HelmIndexCache.IndexCache.Set | internal/controller/helm/source/http/index_cache.go:101-124 | a disabled cache is unchanged; below capacity the entry is written; at capacity one least recently accessed entry is evicted first, so the bound is kept |
| HelmIndexCache.IndexCache.Clear | internal/controller/helm/source/http/index_cache.go:127-140 | an enabled cache forgets every entry; a disabled one is unchanged |
| HelmIndexCache.IndexCache.EvictOldest | internal/controller/helm/source/http/index_cache.go:159-176 | an empty table is unchanged; otherwise exactly one least recently accessed entry is removed |
| HelmIndexCache.IndexCache.CleanupExpired | internal/controller/helm/source/http/index_cache.go:198-215 | every expired entry is removed and every other one kept unchanged |
| ChartIndex.FirstMatch | internal/controller/helm/sources/http/caching_repository.go:265-271 | the position of the first entry with the wanted version, and none exactly when no entry has it |
| ChartIndex.ChartUrlMeaning | internal/controller/helm/sources/http/caching_repository.go:259-283 | when the first matching entry has URLs the first URL is used; when it has none the "has no URLs" error is returned |
| ChartIndex.ChartUrlErrors | internal/controller/helm/sources/http/caching_repository.go:259-280 | an unknown chart and an unknown version are reported with their own messages, and a success is the first URL of a matching entry |
| ChartIndex.FreshnessMonotone | internal/controller/helm/sources/http/caching_repository.go:196-205 | an index file fresh at some age is fresh at any smaller age, and a stale one stale at any larger age |
| ChartIndex.FileNamesDistinct | internal/controller/helm/sources/http/caching_repository.go:189-190 | different repositories use different index and lock files, and no index file is a lock file |
| ChartIndex.LoadOrDownloadIndex | internal/controller/helm/sources/http/caching_repository.go:186-241 | the index is fetched only when the file is missing or stale |
| ChartIndex.DownloadOnlyWhenStale | internal/controller/helm/sources/http/caching_repository.go:186-241 | a fresh file is read without fetching; a missing or stale one is fetched before it is read; a loaded index is the one on disk |
| ChartIndex.FromIndex | internal/controller/helm/sources/http/caching_repository.go:246-322 | a failed version lookup is returned as the lookup's error, before any download |
| ChartIndex.HitIgnoresDisk | internal/controller/helm/sources/http/caching_repository.go:112-115 | on a cache hit the answer does not depend on the index file on disk |
| ChartIndex.MissSearchesLoadedIndex | internal/controller/helm/sources/http/caching_repository.go:118-129 | on a miss the loaded index is searched exactly as a hit on it would be |
| ChartIndex.HttpChartSource.FindChartUrl | internal/controller/helm/sources/http/caching_repository.go:255-280 | the Helm settings point at the source's files and the result is the version lookup of the index |
| ChartIndex.HttpChartSource.LoadChartFromIndex | internal/controller/helm/source/http/chart_source.go:239-294 | the Helm settings point at the source's files and the result is the version lookup in the index followed by the chart fetch of this source kind |
| ChartIndex.HttpChartSource.LocateChart | internal/controller/helm/sources/http/caching_repository.go:100-130 | a repository error leaves the cache alone; a hit is served from the cache; a miss loads the index, stores it and searches it, keeping the cache bound |
| ChartIndex.FirstEntryWins | internal/controller/helm/sources/http/caching_repository.go:265-271 | of two entries with the same version, the first one's URL is used |
| OciReference.SplitLength | internal/controller/helm/sources/oci/config.go:65-67 | splitting on a separator yields one more piece than the separator occurs |
| OciReference.ParseErrors | internal/controller/helm/sources/oci/config.go:58-84 | a missing "oci://" prefix, a version separator count other than one, and a missing path are reported in that order, each with its own message |
| OciReference.ParseRoundTrip | internal/controller/helm/sources/oci/config.go:58-84 | on success the registry has no "/" or ":", the path and version no ":", and registry, path and version render back to the input |
| OciReference.RenderParse | internal/controller/helm/sources/oci/config.go:58-84 | rendering separator-free pieces and parsing the text gives the same pieces back |
| OciReference.ParseDeepPathExample | internal/controller/helm/sources/oci/config.go:72-83 | "oci://g.io/o/app:2" parses to registry "g.io", path "o/app", version "2" |
| OciReference.ParseShortExample | internal/controller/helm/sources/oci/config.go:58-84 | "oci://r.io/chart:v1" parses to registry "r.io", path "chart", version "v1" |
| OciReference.TwoColonsRejected | internal/controller/helm/sources/oci/config.go:65-70 | a reference with two or more ":" after the scheme, such as a registry port, is rejected with the version error |
| OciReference.MissingPathExample | internal/controller/helm/sources/oci/config.go:72-79 | "oci://chart:v1" is rejected for having no registry and chart path |
| OciReference.ValidateOciReference | internal/controller/helm/sources/oci/config.go:89-120 | the validator accepts exactly the references of ten or more UTF-8 bytes (Go's `len`) with the "oci://" prefix that contain both "/" and ":" after it |
| OciReference.ParsedIsValid | internal/controller/helm/sources/oci/config.go:89-120 | every reference of ten or more bytes that parses also validates |
| OciReference.ValidatorAcceptsUnparsable | internal/controller/helm/sources/oci/config.go:89-120 | "oci://h:5/chart:1" passes the validator but the parser rejects it |
| OciReference.LongReferenceValid | internal/controller/helm/sources/oci/config.go:93-120 | a reference of ten or more characters is at least ten bytes, so only its prefix and its "/" and ":" decide it |
| OciReference.ValidatorAcceptsExample | internal/controller/helm/sources/oci/config.go:89-120 | "oci://r.io/chart:v1" is accepted |
| OciReference.ValidatorRejectsBareRegistry | internal/controller/helm/sources/oci/config.go:89-120 | "oci://r" is rejected |
| OciReference.ValidatorRejectsMissingPath | internal/controller/helm/sources/oci/config.go:89-120 | "oci://ghcr.io:1.0.0", with no "/" after the scheme, is rejected |
| OciReference.ValidatorRejectsOtherScheme | internal/controller/helm/sources/oci/config.go:97-99 | an https URL is rejected |
| OciReference.ValidatorCountsBytes | internal/controller/helm/sources/oci/config.go:93 | "oci://\u00e9/:" has nine characters but ten bytes, and is accepted |
| Strings.Utf8Len | internal/controller/helm/sources/oci/config.go:93 | the byte length is at least the character count and at most four bytes per character |
| Strings.Utf8LenAppend | internal/controller/helm/sources/oci/config.go:93 | the byte length of a concatenation is the sum of the byte lengths |
| Strings.Utf8LenAscii | internal/controller/helm/sources/oci/config.go:93 | an ASCII text has as many bytes as characters |
| OciChart.TokenWins | internal/controller/helm/source/oci/chart_source.go:171-174 | a secret with a non-empty token yields that token alone, whatever else it holds |
| OciChart.UsernamePasswordFallback | internal/controller/helm/source/oci/chart_source.go:176-182 | without a usable token the secret succeeds exactly when it has a username and a password, and yields that pair |
| OciChart.CredentialErrors | internal/controller/helm/source/oci/chart_source.go:159-185 | the credentials fail exactly when the read fails or neither a token nor the pair is present; a read failure says "failed to get secret" |
| OciChart.CredentialsExclusive | internal/controller/helm/source/oci/chart_source.go:159-185 | at most one of the token and the username is non-empty |
| OciChart.LoginFor | internal/controller/helm/source/oci/chart_source.go:84-94 | a token logs in with an empty user name and the token as password, otherwise with the username and password |
| OciChart.FetchChart | internal/controller/helm/source/oci/chart_source.go:53-132 | an invalid reference fails before any login; without a secret reference no login is attempted; a login is at the reference's registry; a success went through every step |
| OciChart.Authenticate | internal/controller/helm/source/oci/chart_source.go:77-97 | without a secret reference nothing happens; with one, success needs a login that passed |
| OciChart.TokenLogin | internal/controller/helm/source/oci/chart_source.go:84-89 | with a token in the secret the fetch logs in with an empty user name and the token |
| OciChart.LoginFailureStops | internal/controller/helm/source/oci/chart_source.go:84-94 | a failed login stops the fetch with a message naming the kind of login that failed |
| OciChart.ChartSource.GetChart | internal/controller/helm/source/oci/chart_source.go:53-132 | the login is the fetch's login, there is none without a secret reference, a loaded chart needs a successful fetch, and a failed fetch is returned as is |
| OciSource.DecodeOciConfig | internal/controller/helm/sources/oci/source.go:76-80 | a decoded source section is a JSON object whose "chart" is the stored chart reference |
| OciSource.ParseSourceConfig | internal/controller/helm/sources/oci/source.go:63-96 | an accepted configuration satisfies every validation rule |
| OciSource.MissingSourceRejected | internal/controller/helm/sources/oci/source.go:70-74 | a configuration without a "source" key fails with "source field is required" |
| OciSource.ParseSourceConfigMeaning | internal/controller/helm/sources/oci/source.go:63-96 | a configuration is accepted exactly when the text decodes, has a decodable "source" section, and that section passes the rules; then it is that section |
| OciSource.Source.Type | internal/controller/helm/sources/oci/source.go:42-44 | the registry key is "oci" |
| OciSource.Source.ParseAndValidate | internal/controller/helm/sources/oci/source.go:63-96 | success stores the parsed configuration; failure returns the error and keeps the previous one |
| OciSource.Source.LocateChart | internal/controller/helm/sources/oci/source.go:108-180 | before a successful parse the call fails with the "must be called before" error; without authentication no login happens; a success is the pull's result |
| OciSource.Source.GetVersion | internal/controller/helm/sources/oci/source.go:184-195 | the version of the configured reference, and "" when nothing is configured or the reference does not parse |
| OciSource.GetVersionOfReference | internal/controller/helm/sources/oci/source.go:184-195 | a source configured with a well-formed reference reports that reference's version |
| SourceDetect.SectionType | internal/controller/helm/sources/detect.go:49-61 | a detected type is the section's non-empty string "type", and detection succeeds exactly when the section is an object with such a field |
| SourceDetect.DetectSectionType | internal/controller/helm/sources/composite/source.go:115-130 | for decodable text the result is the type of the section itself; undecodable text fails with "failed to parse source section" |
| SourceDetect.DetectSourceTypeErrors | internal/controller/helm/sources/detect.go:35-61 | undecodable text, a missing "source" key and an empty type fail with their own messages |
| SourceDetect.DetectSourceTypeResult | internal/controller/helm/sources/detect.go:35-61 | detection succeeds exactly when the configuration has a "source" object with a non-empty string type, and returns that type |
| SourceDetect.DetectThroughSection | internal/controller/helm/sources/registry.go:112-139 | detecting on a whole configuration gives the same answer as detecting on its "source" section |
| SourceDetect.DetectSectionTypeErrors | internal/controller/helm/sources/composite/source.go:115-130 | the composite detection reads "type" at the top level and rejects an empty one |
| SourceRegistry.KeysInSomeOrder | internal/controller/helm/sources/registry.go:142-148 | the listed types are the registered types, each exactly once, in some order |
| SourceRegistry.Lookup | internal/controller/helm/sources/registry.go:93-100 | a registered type gives its factory; any other gives "unknown source type" with the registered types in some order |
| SourceRegistry.Registry.Register | internal/controller/helm/sources/registry.go:41-43 | the factory is stored under its own type, replacing an earlier one of that type |
| SourceRegistry.Registry.Type | internal/controller/helm/sources/registry.go:47-49 | the registry reports the type "registry" |
| SourceRegistry.Registry.Get | internal/controller/helm/sources/registry.go:93-100 | a registered type gives its factory; any other gives the unknown-type error |
| SourceRegistry.Registry.AvailableTypes | internal/controller/helm/sources/registry.go:142-148 | exactly the registered types, each once |
| SourceRegistry.Registry.CreateSource | internal/controller/helm/sources/registry.go:68-83 | a detection error is returned as is; an unknown type gives the unknown-type error; otherwise the matching factory is called with the whole configuration, and only then |
| SourceRegistry.UnknownPrefix | internal/controller/helm/sources/registry.go:78 | every unknown-type message starts with "unknown source type: " and the type |
| SourceRegistry.CompositeRegistry.Register | internal/controller/helm/sources/composite/source.go:44-46 | the factory is stored under its own type, replacing an earlier one of that type |
| SourceRegistry.CompositeRegistry.Type | internal/controller/helm/sources/composite/source.go:50-52 | the registry reports the type "composite" |
| SourceRegistry.CompositeRegistry.Get | internal/controller/helm/sources/composite/source.go:98-105 | a registered type gives its factory; any other gives the unknown-type error |
| SourceRegistry.CompositeRegistry.CreateSource | internal/controller/helm/sources/composite/source.go:71-88 | a detection error is returned as is; an unknown type gives the unknown-type error; otherwise the matching factory is called with the same source section |
| IamRole.FirstFailure | internal/controller/iam-role/operations_deploy.go:304-331 | the position of the first ARN whose call fails, every earlier one having passed, and none exactly when all pass |
| IamRole.FirstFailureAt | internal/controller/iam-role/operations_deploy.go:304-331 | a loop that stops at the first failing call stops at the position FirstFailure names |
| IamRole.ReconcilePolicyAttachments | internal/controller/iam-role/operations_deploy.go:253-341 | the reconciliation result, error and IAM calls equal `IamRole.Reconcile` of the desired policies and IAM's answers |
| IamRole.ApplyDifferences | internal/controller/iam-role/operations_deploy.go:303-340 | with something to change, detaching then attaching gives `ReconcileWith` of the current set and both differences |
| IamRole.DetachInOrder | internal/controller/iam-role/operations_deploy.go:304-317 | the detach loop stops at the first failing call, recording it; the policies before it are gone and the rest still attached |
| IamRole.AttachInOrder | internal/controller/iam-role/operations_deploy.go:319-333 | the attach loop stops at the first failing call, recording it; the policies before it are added |
| IamRole.EffectOfDetaches | internal/controller/iam-role/operations_deploy.go:304-317 | detach calls that all pass remove exactly their ARNs from the attachment set |
| IamRole.EffectOfAttaches | internal/controller/iam-role/operations_deploy.go:319-333 | attach calls that all pass add exactly their ARNs to the attachment set |
| IamRole.FailedCallNoEffect | internal/controller/iam-role/operations_deploy.go:306-312 | a call IAM rejected leaves the attachment set unchanged |
| IamRole.EffectAppend | internal/controller/iam-role/operations_deploy.go:303-333 | the effect of two runs of calls is the effect of the second applied after the first |
| IamRole.ReportsActualState | iamrole/aws_iamrole_reconcile.go:78-112 | whether the reconciliation succeeds or stops at a failed call, the reported attachments are, sorted, exactly what the calls it made leave attached |
| IamRole.DetachFailedReportsActual | iamrole/aws_iamrole_reconcile.go:77-85 | a detach failing part-way reports, sorted, the attachments left after the detaches before it succeeded and the failing one changed nothing |
| IamRole.AttachPhaseReportsActual | iamrole/aws_iamrole_reconcile.go:88-112 | once every detach passed, the attach loop reports, sorted, what the calls made leave attached, whether it stops at a failed attach or finishes |
| IamRole.FullSuccessIsDesired | internal/controller/iam-role/operations_deploy.go:294-340 | a fully successful reconciliation leaves exactly the desired policies attached; the counts are the sizes of the two differences |
| IamRole.NoChangesNoCalls | internal/controller/iam-role/operations_deploy.go:294-301 | when the desired and current sets agree, no call is made and the current set is reported with both counts 0 |
| IamRole.CallsInOrder | internal/controller/iam-role/operations_deploy.go:303-333 | every detach comes before every attach; each detach names an attached undesired policy and each attach a desired unattached one |
| IamRole.ReportedSorted | internal/controller/iam-role/operations_deploy.go:296-340 | the reported attachments are strictly sorted, so free of duplicates |
| IamRole.ListFailure | internal/controller/iam-role/operations_deploy.go:256-260 | a failed listing returns its error, no result, and makes no call |
| IamRole.DetachedCountWhenNothingDetached | iamrole/aws_iamrole_reconcile.go:78-85 | when the first of two detaches fails, the reported detached count is 2 although nothing was detached |
| IamRole.ToIamTags | internal/controller/iam-role/operations_deploy.go:201-215 | no tags give nil; otherwise there is one tag per entry, carrying that entry's key and value, and no key twice |
| IamRole.UpdateTrustPolicy | internal/controller/iam-role/operations_deploy.go:218-241 | the update call is made exactly when the current and desired documents are not equal as JSON, and an error needs a failed call |
| IamRole.TrustPolicySkip | internal/controller/iam-role/operations_deploy.go:150-169 | documents that differ only in spelling never cause an update, and an invalid desired document always does |
| IamRole.DeleteRole | iamrole/aws_iamrole.go:151-166 | a delete succeeds exactly when IAM deleted the role or reports it not found |
| IamRole.UnchangedIffNoCounts | internal/controller/iam-role/operations_deploy.go:108-113 | the details say "unchanged" exactly when nothing was attached or detached |
| IamRole.PartialFailureRecorded | internal/controller/iam-role/operations_deploy.go:93-102 | even when the reconciliation fails, the status records the attachments actually left in place |
| IamRole.CheckWithoutArn | internal/controller/iam-role/operations_deploy.go:122-126 | without a role ARN the check is in progress, whatever IAM would answer, and the status is unchanged |
| IamRole.IamRoleOperations.Deploy | internal/controller/iam-role/operations_deploy.go:26-115 | the new status and the action result equal `IamRole.Deployed` of the configuration, the old status and IAM's answers |
| IamRole.IamRoleOperations.CheckDeployment | internal/controller/iam-role/operations_deploy.go:119-148 | the new status and the check result equal `IamRole.Checked` of the configuration, the old status and IAM's answer |
| IamRoleConfig.CheckRequired | internal/controller/iam-role/config.go:67-81 | the checks pass exactly when the role name, the trust policy and at least one managed policy ARN are present and the trust policy is valid JSON; otherwise the first failing check, in source order, is reported |
| IamRoleConfig.DefaultedMeaning | internal/controller/iam-role/config.go:119-131 | defaulting sets an empty path to "/" and a zero session duration to 3600 seconds, and keeps explicit values and every other field |
| IamRoleConfig.DefaultedIdempotent | internal/controller/iam-role/config.go:119-131 | defaulting twice is defaulting once |
| IamRoleConfig.DefaultedKeepsChecks | internal/controller/iam-role/config.go:67-131 | defaulting changes none of the checked fields, so the checks give the same answer before and after |
| IamRoleConfig.RoleSpec.ApplyDefaults | iamrole/config.go:79-91 | filling the fields in place leaves `Defaulted` of the old configuration |
| IamRoleConfig.RoleSpec.ResolveSpec | iamrole/config.go:50-76 | the error is the first failing check; a failed check leaves the configuration as it was, a passed one defaults it |
| IamRoleConfig.DecodeRoleConfig | internal/controller/iam-role/config.go:62-65 | a decoded trust policy keeps its text and its JSON reading, and the session duration is an integer literal that fits a 32-bit integer |
| IamRoleConfig.ResolveIamRoleConfig | internal/controller/iam-role/config.go:61-101 | decode and check failures are reported with their messages; success happens exactly for a decodable configuration that passes the checks, and then it is that configuration with defaults |
| IamRoleConfig.FractionalDurationRejected | internal/controller/iam-role/config.go:62-65 | a session duration written with a fraction or an exponent (`3600.0`, `3.6e3`) fails to decode, so the configuration is rejected |
| IamRoleConfig.WideDurationRejected | internal/controller/iam-role/config.go:62-65 | a session duration beyond 32 bits fails to decode |
| IamRoleConfig.ResolvedIsFixedPoint | internal/controller/iam-role/config.go:61-101 | a resolved configuration passes every check and defaulting it again changes nothing |
| IamRoleConfig.VariantsAgree | iamrole/config.go:50-76 | the package's resolveSpec and the controller's resolution apply the same checks followed by the same defaults |
| IamRoleConfig.ResolveIamRoleStatus | internal/controller/iam-role/config.go:104-116 | an empty status gives the empty status, JSON null gives none, and undecodable text is an error |
| IamRoleConfig.StatusFieldsRead | internal/controller/iam-role/config.go:104-116 | a stored status with only a role ARN reads back with that ARN and the other fields empty |
| IamPolicyConfig.CheckRequired | internal/controller/iam-policy/config.go:64-76 | the checks pass exactly when the policy name and the document are present and the document is valid JSON; otherwise the first failing check is reported |
| IamPolicyConfig.DefaultedMeaning | internal/controller/iam-policy/config.go:109-121 | the package default sets only an empty path to "/"; the controller default also sets an empty region to "us-east-1"; explicit values and other fields are kept |
| IamPolicyConfig.DefaultedIdempotent | internal/controller/iam-policy/config.go:109-121 | both defaultings are idempotent |
| IamPolicyConfig.DefaultedKeepsChecks | internal/controller/iam-policy/config.go:64-121 | defaulting touches no checked field, so the checks give the same answer |
| IamPolicyConfig.PolicySpec.ApplyDefaults | iampolicy/config.go:68-75 | filling in place leaves the path-defaulted configuration |
| IamPolicyConfig.PolicySpec.ApplyControllerDefaults | internal/controller/iam-policy/config.go:109-121 | filling in place leaves the path- and region-defaulted configuration |
| IamPolicyConfig.PolicySpec.ResolveSpec | iampolicy/config.go:45-65 | the error is the first failing check; a failed check leaves the configuration as it was, a passed one path-defaults it |
| IamPolicyConfig.DecodePolicyConfig | internal/controller/iam-policy/config.go:59-62 | a decoded document keeps its text and its JSON reading |
| IamPolicyConfig.ResolveIamPolicyConfig | internal/controller/iam-policy/config.go:58-91 | decode and check failures are reported with their messages; success happens exactly for a decodable configuration that passes the checks, and then it is that configuration with defaults |
| IamPolicyConfig.ResolvedIsFixedPoint | internal/controller/iam-policy/config.go:58-91 | a resolved configuration passes every check and defaulting again changes nothing |
| IamPolicyConfig.MinimalConfig | internal/controller/iam-policy/config.go:58-91 | a configuration with only a name and a valid document resolves to path "/" and region "us-east-1" |
| IamPolicyConfig.ResolveIamPolicyStatus | internal/controller/iam-policy/config.go:94-106 | an empty status gives the empty status, JSON null gives none, and undecodable text is an error |
| IamPolicyConfig.StatusFieldsRead | internal/controller/iam-policy/config.go:94-106 | a stored status keeps its policy ARN and version, and absent fields stay empty |
| SecretPushConfig.GeneratorError | internal/controller/secret-push/config.go:163-171 | a generator is accepted exactly when its length lies between 1 and 4096, with one message for each bound |
| SecretPushConfig.FieldError | internal/controller/secret-push/config.go:115-129 | a field is accepted exactly when it has either a non-empty value or a valid generator but not both, with one message for each case |
| SecretPushConfig.CheckFields | internal/controller/secret-push/config.go:113-130 | no error exactly when every field is valid; otherwise the error of some invalid field, as map iteration order allows any |
| SecretPushConfig.ResolveEnumValue | secretpush/config.go:124-134 | an empty value gives the default, an allowed value is kept, and anything else is an error naming the allowed values |
| SecretPushConfig.ResolveEnumIdempotent | secretpush/config.go:124-134 | resolving a resolved value again gives the same value when the default is allowed |
| SecretPushConfig.PoliciesResolvedMeaning | secretpush/config.go:107-119 | the policies resolve exactly when each is empty or allowed; then explicit values are kept, empty ones become "IfNotExists" and "Delete", and no other field changes |
| SecretPushConfig.PoliciesResolvedIdempotent | secretpush/config.go:107-119 | a resolved specification resolves again unchanged |
| SecretPushConfig.VariantsAgree | internal/controller/secret-push/config.go:174-201 | the package's and the controller's policy rules accept the same configurations and resolve them to the same values |
| SecretPushConfig.UpdatePolicyReportedFirst | internal/controller/secret-push/config.go:178-187 | an unknown update policy is reported before the deletion policy is looked at |
| SecretPushConfig.SecretSpec.ResolveSpec | secretpush/config.go:74-121 | the name, the field count and each field are checked in that order, and a failure among them leaves the specification unchanged; with valid fields the policies are resolved as `PoliciesResolved` says |
| SecretPushConfig.SecretSpec.ApplyDefaults | internal/controller/secret-push/config.go:174-201 | success exactly when the controller defaulting succeeds, leaving its result; otherwise its error |
| SecretPushConfig.ResolveSecretPushConfig | internal/controller/secret-push/config.go:98-145 | decode errors, a missing name, no fields and an invalid field are reported in that order; otherwise the result is the controller-defaulted configuration |
| SecretPushConfig.ResolvedIsValid | internal/controller/secret-push/config.go:98-145 | a resolved configuration has a name, at least one valid field and allowed policies |
| SecretPushConfig.ResolveSecretPushStatus | internal/controller/secret-push/config.go:148-160 | an empty status gives the empty status, JSON null gives none, undecodable text is an error, and otherwise the status is an error exactly when its fields fail to decode |
| SecretPushConfig.FieldCountLiteralChecked | internal/controller/secret-push/config.go:148-160 | a field count that is not an integer literal, or needs more than 64 bits, makes the stored status an error |
| SecretPushConfig.StatusFieldsRead | internal/controller/secret-push/config.go:148-160 | a stored status keeps its secret ARN and field count, and absent fields stay empty |
| IamPolicy.FirstNamed | internal/controller/iam-policy/operations.go:126-150 | the position of the first listed policy with the name, every earlier one having another name, and none exactly when no policy has it |
| IamPolicy.FindPolicyByName | iampolicy/aws_iampolicy.go:32-54 | the name search returns the first listed policy with the name, or none |
| IamPolicy.PolicyByName | internal/controller/iam-policy/operations.go:126-150 | the lookup succeeds exactly when the listing does; a found policy has the name and was listed, and none means no listed policy has it |
| IamPolicy.GetPolicyByName | internal/controller/iam-policy/operations.go:126-150 | the result equals `PolicyByName` of the name, the path and IAM's answers |
| IamPolicy.PolicyByArn | internal/controller/iam-policy/operations.go:152-169 | a NoSuchEntity answer gives no policy rather than an error, and an error is returned exactly for any other failure |
| IamPolicy.OldestIn | internal/controller/iam-policy/operations_deploy.go:193-203 | the chosen version is not the default, was created no later than any other non-default version, and is the first such in list order; there is none exactly when every version is the default |
| IamPolicy.OldestVersion | internal/controller/iam-policy/operations_deploy.go:193-203 | the search loop chooses `OldestIn` of the listed versions |
| IamPolicy.PruneOldestVersion | iampolicy/aws_iampolicy.go:150-204 | the error and calls equal `IamPolicy.Prune` of the policy and IAM's answers |
| IamPolicy.PruneDeletesOldest | internal/controller/iam-policy/operations_deploy.go:172-225 | at most one version is deleted, exactly when five or more are listed and one is not the default, and it is the oldest non-default one |
| IamPolicy.PruneBelowLimit | internal/controller/iam-policy/operations_deploy.go:186-189 | below five versions only the listing is made and pruning succeeds |
| IamPolicy.PruneMakesRoom | internal/controller/iam-policy/operations_deploy.go:172-225 | with at most five versions, one of them not the default, a successful pruning leaves fewer than five |
| IamPolicy.CurrentDocument | internal/controller/iam-policy/operations_deploy.go:228-253 | a current document belongs to the found policy's default version |
| IamPolicy.CreateNewVersion | internal/controller/iam-policy/operations_deploy.go:123-169 | the version in effect and the calls equal `IamPolicy.NewVersion` of the policy, the desired document and IAM's answers |
| IamPolicy.UnchangedDocumentKept | internal/controller/iam-policy/operations_deploy.go:136-141 | an unchanged document keeps the current default version and makes no pruning or creation call |
| IamPolicy.RespellingIsUnchanged | internal/controller/iam-policy/operations_deploy.go:136 | a desired document that decodes to the current one counts as unchanged however it is spelled |
| IamPolicy.ChangedDocumentPublished | internal/controller/iam-policy/operations_deploy.go:143-168 | a version is created only for a changed document, after pruning succeeded, as the last call and as the new default; a created version is the version in effect |
| IamPolicy.DeletePolicyError | internal/controller/iam-policy/operations_delete.go:88-108 | deleting succeeds exactly when IAM deleted the policy or reports it already gone |
| IamPolicy.DeleteEach | internal/controller/iam-policy/operations_delete.go:131-157 | the deleted count never exceeds the calls; every call deletes a listed non-default version; no error exactly when no deletion failed other than by NoSuchEntity |
| IamPolicy.ErrorStops | internal/controller/iam-policy/operations_delete.go:145-152 | after the first failing deletion, later versions add no call and change nothing |
| IamPolicy.DeletePolicyAllVersions | iampolicy/aws_iampolicy.go:257-310 | the error, the count and the calls equal `IamPolicy.DeleteAllVersions` of the policy and IAM's answers |
| IamPolicy.NonDefault | internal/controller/iam-policy/operations_delete.go:135-137 | the versions kept are exactly the listed non-default ones |
| IamPolicy.EveryNonDefaultAttempted | internal/controller/iam-policy/operations_delete.go:131-157 | without an error, every non-default version's deletion was attempted once, in list order |
| IamPolicy.StopsAtFailure | internal/controller/iam-policy/operations_delete.go:145-152 | an error comes from the last deletion attempted, which failed other than by NoSuchEntity |
| IamPolicy.PolicyInput | internal/controller/iam-policy/operations_deploy.go:84-103 | the request carries the name, document and path, and a description or tags only when they are non-empty |
| IamPolicy.DeployCreatesOnlyWhenMissing | internal/controller/iam-policy/operations_deploy.go:24-48 | a policy is created exactly when none has the configured name; an existing one is recorded in the status and versioned without any creation |
| IamPolicy.NoCreatePolicyInVersioning | internal/controller/iam-policy/operations_deploy.go:123-169 | versioning an existing policy never creates a policy |
| IamPolicy.DeployRecordsVersion | internal/controller/iam-policy/operations_deploy.go:84-169 | a successful deployment records the version in effect: the new policy's default version or the published one |
| IamPolicy.CheckDeploymentWithoutArn | internal/controller/iam-policy/operations_deploy.go:55-58 | without a policy ARN the check is in progress and makes no IAM call |
| IamPolicy.DeleteWithoutArn | internal/controller/iam-policy/operations_delete.go:21-24 | without a policy ARN the deletion succeeds and makes no IAM call |
| IamPolicy.DeleteAlreadyGone | internal/controller/iam-policy/operations_delete.go:36-39 | a policy that is already gone counts as deleted after only the lookup |
| IamPolicy.VersionsBeforePolicy | internal/controller/iam-policy/operations_delete.go:17-56 | the policy is deleted only as the last call, after every listed non-default version's deletion was attempted, and a default version is never deleted |
| IamPolicy.AllVersionsCalls | internal/controller/iam-policy/operations_delete.go:111-163 | deleting the versions never deletes the policy, attempts only listed non-default versions, and without an error attempts all of them |
| IamPolicy.DeletionCheckMeaning | internal/controller/iam-policy/operations_delete.go:59-85 | the deletion check is in progress exactly when a policy is still found at the recorded ARN, and complete exactly when there is no ARN or no policy |
| IamPolicy.IamPolicyOperations.Deploy | internal/controller/iam-policy/operations_deploy.go:24-48 | the new status, the result and the calls equal `IamPolicy.Deployed` of the configuration, the old status and IAM's answers |
| IamPolicy.IamPolicyOperations.CheckDeployment | internal/controller/iam-policy/operations_deploy.go:51-81 | the new status, the check result and the calls equal `IamPolicy.DeploymentChecked` of the old status and IAM's answers |
| IamPolicy.IamPolicyOperations.Delete | internal/controller/iam-policy/operations_delete.go:17-56 | the result and the calls equal `IamPolicy.DeletionStarted` of the status and IAM's answers |
| IamPolicy.IamPolicyOperations.CheckDeletion | internal/controller/iam-policy/operations_delete.go:59-85 | the check result and the calls equal `IamPolicy.DeletionChecked` of the status and IAM's answers |
| RdsPackageConfig.AppliedMeaning | rds/config.go:90-157 | `applyDefaults` fails exactly when the master user name is empty (that error first) or password management is explicitly off, and then changes nothing; otherwise no setting is left nil, explicit settings are kept, missing ones get their documented defaults and the password is RDS-managed |
| RdsPackageConfig.ReapplyIsNoOp | rds/config.go:90-157 | applying the defaults to a configuration they completed reports no error and changes nothing |
| RdsPackageConfig.InstanceIdCheckedFirst | rds/config.go:75-87 | an empty instance identifier is rejected before the defaults and leaves the configuration untouched; resolution succeeds exactly when identifier, master user name and password management all pass |
| RdsPackageConfig.RdsSpec.ResolveSpec | rds/config.go:75-87 | the in-place resolution leaves the error and configuration that `Resolved` describes |
| RdsPackageConfig.RdsSpec.ApplyDefaults | rds/config.go:90-157 | the in-place defaulting leaves the error and configuration that `Applied` describes |
| RdsPackageConfig.RdsSpec.FillStorageAndNetwork | rds/config.go:105-118 | only the missing storage type, encryption and public-access settings are set, to gp2, encrypted and private |
| RdsPackageConfig.RdsSpec.FillBackupAndMaintenance | rds/config.go:120-130 | only the missing backup retention and minor-upgrade settings are set, to 7 days and on |
| RdsPackageConfig.RdsSpec.FillPerformance | rds/config.go:132-144 | only the missing Multi-AZ, performance-insights and monitoring settings are set, to off, off and 0 |
| RdsPackageConfig.RdsSpec.FillDeletion | rds/config.go:146-154 | only the missing deletion-protection and skip-final-snapshot settings are set, to on and off |
| RdsControllerConfig.EnginePort | internal/controller/rds/config.go:200-213 | the default port is 3306 for "mysql" and 5432 for "postgres" and for every other engine |
| RdsControllerConfig.DefaultedMeaning | internal/controller/rds/config.go:183-265 | after `applyRdsConfigDefaults` no pointer setting is nil, explicit settings are kept, the port follows the engine and the timeouts default to 40/80/60 minutes; no other field changes |
| RdsControllerConfig.DefaultedIdempotent | internal/controller/rds/config.go:183-265 | completing a completed configuration changes nothing |
| RdsControllerConfig.VariantsAgree | internal/controller/rds/config.go:183-249 | the controller's defaults and the package's defaults (rds/config.go:106-155) agree on every setting the two share |
| RdsControllerConfig.RdsControllerSpec.ApplyDefaults | internal/controller/rds/config.go:183-265 | the in-place defaulting never reports an error and leaves the configuration that `Defaulted` describes |
| RdsControllerConfig.RdsControllerSpec.FillStorageAndNetwork | internal/controller/rds/config.go:184-212 | only the missing storage, network and port settings are set, the port chosen by engine |
| RdsControllerConfig.RdsControllerSpec.FillBackupAndMaintenance | internal/controller/rds/config.go:214-224 | only the missing backup retention and minor-upgrade settings are set |
| RdsControllerConfig.RdsControllerSpec.FillPerformanceAndDeletion | internal/controller/rds/config.go:226-248 | only the missing performance and deletion settings are set |
| RdsControllerConfig.RdsControllerSpec.FillTimeouts | internal/controller/rds/config.go:250-262 | a missing timeouts block is created empty and each missing timeout gets its default, explicit ones kept |
| RdsControllerConfig.ResolveRdsConfig | internal/controller/rds/config.go:147-166 | a decoding error is reported with the "failed to parse rds config: " prefix; every decoded configuration is completed by the defaults |
| RdsControllerConfig.ResolvedIsFixedPoint | internal/controller/rds/config.go:147-166 | a resolved configuration has every setting present and resolving it again changes nothing |
| RdsControllerConfig.ResolveRdsStatus | internal/controller/rds/config.go:168-180 | no stored status gives the empty status, a stored JSON null gives a nil status, and malformed or ill-typed text is an error, a 32-bit field included when its number is not an integer literal in range |
| RdsControllerConfig.PortLiteralChecked | internal/controller/rds/config.go:168-180 | a port that is not an integer literal, or needs more than 32 bits, makes the stored status an error |
| RdsControllerConfig.StatusFieldsRead | internal/controller/rds/config.go:168-180 | a stored status keeps the recorded fields and leaves the absent ones at their zero values |
| RdsConversion.StringPtr | internal/controller/rds/conversion.go:32-35 | the pointer is never nil and dereferences back to the value |
| RdsConversion.Int32Ptr | internal/controller/rds/conversion.go:37-40 | the pointer is never nil and dereferences back to the value |
| RdsConversion.BoolPtr | internal/controller/rds/conversion.go:42-45 | the pointer is never nil and dereferences back to the value |
| RdsConversion.OptionalStringPtr | internal/controller/rds/conversion.go:51-58 | nil exactly for the empty string, otherwise a pointer to the value, so reading it back gives the original string |
| RdsConversion.OptionalInt32Ptr | internal/controller/rds/conversion.go:60-67 | nil exactly for zero, otherwise a pointer to the value, so reading it back gives the original number |
| RdsConversion.PositiveInt32Ptr | internal/controller/rds/conversion.go:69-76 | nil exactly for a value that is not positive, otherwise a pointer to the value |
| RdsConversion.PassthroughPositiveInt32Ptr | internal/controller/rds/conversion.go:78-86 | nil exactly when the pointer is nil or points to a value that is not positive, otherwise the same pointer |
| RdsConversion.OptionalBoolPtr | internal/controller/rds/conversion.go:88-95 | always a pointer to the value, false included |
| RdsConversion.Passthrough | internal/controller/rds/conversion.go:97-122 | nil stays nil and a set pointer keeps its value: the result equals the argument |
| RdsConversion.StringSlicePtr | internal/controller/rds/conversion.go:126-140 | nil for an empty list, otherwise one pointer per element, in order, to that element |
| RdsConversion.StringValue | internal/controller/rds/conversion.go:142-149 | nil reads as "", a set pointer as its value |
| RdsConversion.Int32Value | internal/controller/rds/conversion.go:151-158 | nil reads as 0, a set pointer as its value |
| RdsConversion.BoolValue | internal/controller/rds/conversion.go:160-167 | nil reads as false, a set pointer as its value |
| RdsConversion.EndpointAddress | internal/controller/rds/conversion.go:171-178 | "" when the endpoint or its address is missing, the address otherwise |
| RdsConversion.EndpointPort | internal/controller/rds/conversion.go:180-186 | 0 when the endpoint or its port is missing, the port otherwise |
| RdsConversion.PositiveRoundTrip | internal/controller/rds/conversion.go:69-76 | reading back a positive-only pointer gives the value when positive and 0 otherwise |
| RdsConversion.PassthroughPositiveIsPositiveOfValue | internal/controller/rds/conversion.go:69-86 | passing a pointer through the positive filter is the same as reading it and building a positive-only pointer |
| RdsHealth.HealthOf | rds/health.go:47-94 | healthy exactly for the operational states, with the reason and message of the state's family otherwise (storage full, maintenance, stopped, failed, unknown) |
| RdsHealth.CheckHealth | rds/health.go:23-95 | a failed lookup goes to the error classifier, a missing instance is degraded as deleted, and a found one is judged by its reported state |
| RdsHealth.NotFoundIsDeleted | rds/health.go:29-45 | a not-found fault and an empty description both give the degraded "InstanceDeleted" verdict, not an API failure |
| RdsHealth.MissingStateIsUnknown | rds/health.go:47-94 | an instance without a reported state is in an unknown state, not healthy |
| RdsHealth.HealthAgreesWithDeployment | rds/health.go:47-94 | the state that completes a deployment is healthy, the states that fail one are degraded as failed, and the in-progress states other than creating are healthy |
| RdsInstance.AlreadyBeingDeletedAnyCase | rds/aws_rds.go:223-240 | the "already being deleted" phrase is recognised in any letter case (lower-casing as Go's `strings.ToLower` does every letter that lowers to an ASCII letter) anywhere in an invalid-state fault's message, and never in another kind of fault |
| RdsInstance.DottedCapitalIRecognised | rds/aws_rds.go:232 | "ALREADY BE\u0130NG DELETED", with a dotted capital I, is recognised anywhere in an invalid-state fault's message, since that letter lowers to "i" |
| RdsInstance.FaultsExclusive | rds/aws_rds.go:212-240 | no error is both a missing instance and one already being deleted, and nil is neither |
| RdsInstance.InstanceData | rds/operations.go:140-158 | no instance and no error exactly when AWS says not found or describes none; the first instance when it describes some; any other failure is an error |
| RdsInstance.StatusFromMeaning | rds/operations.go:124-137 | state, ARN, endpoint, port and zone are copied (missing ones as ""/0) and the secret's ARN is taken when reported and otherwise kept |
| RdsInstance.StatusFromIdempotent | rds/operations.go:124-137 | recording the same instance twice is recording it once |
| RdsInstance.StatusFromForgetsTheRest | rds/operations.go:124-137 | the earlier status matters only through the secret's ARN |
| RdsInstance.RdsPackageOperations.UpdateStatus | rds/operations.go:124-137 | the field-by-field update leaves the status `StatusFrom` describes |
| RdsInstance.RdsPackageOperations.UpdateStatusFromInstance | rds/aws_rds.go:192-209 | a nil instance changes nothing; a described one updates the status as `updateStatus` does |
| RdsInstance.CreateInputMeaning | rds/aws_rds.go:47-112 | the required fields are always sent, the secret's KMS key only when configured, optional strings only when non-empty and the monitoring interval only when positive |
| RdsInstance.CreateAfterDefaults | rds/aws_rds.go:47-112 | after the defaults a create request asks for a Secrets Manager password, encrypted storage and deletion protection unless configured otherwise |
| RdsInstance.CreateInstance | rds/aws_rds.go:105-112 | the instance AWS reports, or the failure wrapped with its prefix |
| RdsInstance.DeleteInputFor | rds/aws_rds.go:157-166 | the request names the instance and either skips the final snapshot or names the snapshot to take |
| RdsInstance.DeleteEitherSkipsOrNamesSnapshot | rds/aws_rds.go:157-166 | exactly one of "skip the snapshot" and "a snapshot name" is in every delete request |
| RdsInstance.DefaultDeleteTakesSnapshot | rds/aws_rds.go:157-166 | with the defaults, a deletion takes the configured final snapshot |
| RdsInstance.DeleteInstance | rds/aws_rds.go:170-188 | a missing instance or one already being deleted counts as deleted with no error; any other failure is wrapped |
| RdsInstance.RepeatedDeleteSucceeds | rds/aws_rds.go:170-188 | deleting an instance already being deleted succeeds, whatever the letter case of AWS's message (lower-casing as Go's `strings.ToLower` does every letter that lowers to an ASCII letter) |
| RdsOperations.RdsHandlerConfig | internal/controller/rds/operations.go:113-123 | the default handler settings with 30 s default and error requeues and 15 s status-check requeues; name and finalizer kept |
| RdsOperations.IsTransientError | internal/controller/rds/operations.go:211-234 | the loop over the markers answers true exactly when the error's message holds one of them in any letter case, lower-casing as Go's `strings.ToLower` does every letter that lowers to an ASCII letter; nil never does |
| RdsOperations.FindMarker | internal/controller/rds/operations.go:226-231 | the loop over the markers answers true exactly when the message holds one of them in any letter case, lower-casing as Go's `strings.ToLower` does every letter that lowers to an ASCII letter |
| RdsOperations.TransientAnyCase | internal/controller/rds/operations.go:211-234 | any message holding a marker, in any letter case (lower-casing as Go's `strings.ToLower` does every letter that lowers to an ASCII letter), is transient |
| RdsOperations.KelvinSignTransient | internal/controller/rds/operations.go:226-231 | "NETWOR\u212A unreachable" is transient: the Kelvin sign lowers to "k", so the message holds the marker "network" |
| RdsOperations.NotFoundMessages | internal/controller/rds/operations.go:192-200 | nil is not a not-found error; any message with "DBInstanceNotFound" or "does not exist" is one |
| RdsOperations.ErrorReply | internal/controller/rds/operations.go:146-168 | a transient error goes back to the reconciler with the message prefixed; any other error is recorded as the operation's failure and no error is returned |
| RdsOperations.FailureReply | internal/controller/rds/operations.go:162-168 | a failure recorded as permanent, with the prefixed message and no error returned |
| RdsOperations.IncompatibleNetworkRetriedAsWritten | internal/controller/rds/operations_deploy.go:208-214 | as written (`RdsOperations.DeploymentStatusReplyAsWritten`), the "incompatible-network" status is returned as a transient error and no failure is recorded, while the corrected switch fails the deployment |
| RdsOperations.DeploymentStatusReply | internal/controller/rds/operations_deploy.go:191-220 | success exactly for "available", a permanent failure for the failed statuses, pending for every other status |
| RdsOperations.IsInstanceModifiable | internal/controller/rds/operations_upgrade.go:134-147 | true exactly for "available" and "storage-optimization" |
| RdsOperations.ClassChanges | internal/controller/rds/operations_upgrade.go:161-168 | at most one required instance-class change |
| RdsOperations.StorageChanges | internal/controller/rds/operations_upgrade.go:170-177 | at most one required storage change |
| RdsOperations.EngineChanges | internal/controller/rds/operations_upgrade.go:179-186 | at most one required engine-version change |
| RdsOperations.BackupChanges | internal/controller/rds/operations_upgrade.go:188-196 | at most one optional backup-retention change |
| RdsOperations.MultiAzChanges | internal/controller/rds/operations_upgrade.go:198-205 | at most one optional Multi-AZ change |
| RdsOperations.HasTypeOfOne | internal/controller/rds/operations_upgrade.go:157-208 | a list of at most one change of a type holds a given type exactly when it is that one |
| RdsOperations.HasTypeOfFive | internal/controller/rds/operations_upgrade.go:157-208 | the five groups together hold a type exactly when one group does |
| RdsOperations.RequiredModifications | internal/controller/rds/operations_upgrade.go:157-208 | at most five modifications; their meaning is stated by the two lemmas below |
| RdsOperations.RequiredModificationsMeaning | internal/controller/rds/operations_upgrade.go:157-208 | the class and engine version change when the instance reports a different one, storage only when it must grow, backup retention and Multi-AZ only when configured and different |
| RdsOperations.RequiredModificationsOrdered | internal/controller/rds/operations_upgrade.go:157-208 | the modifications come in the fixed order, each type at most once, exactly the first three kinds required |
| RdsOperations.BuildModifyDbInstanceInput | internal/controller/rds/operations_upgrade.go:211-249 | the loop over the modifications builds the request in which each field is set exactly when its type is listed, then the windows when non-empty and the minor-upgrade flag when set, applied at the next window |
| RdsOperations.RdsOperations.ErrorResult | internal/controller/rds/operations.go:146-168 | the reply of `errorResult` on the current status, which is unchanged |
| RdsOperations.RdsOperations.LookupFailure | internal/controller/rds/operations_deploy.go:136-148 | the failed and empty lookups of the check go through `errorResult` with their messages |
| RdsOperations.RdsOperations.DeploymentStatus | internal/controller/rds/operations_deploy.go:191-220 | the status switch of the check, as `RdsOperations.DeploymentStatusReply`, with the failed statuses permanent, as ## Findings corrects |
| RdsOperations.RdsOperations.RecordIdentity | internal/controller/rds/operations_deploy.go:153-165 | the identifier always, and state, engine, class and storage are recorded only when the response has them |
| RdsOperations.RdsOperations.RecordEndpoint | internal/controller/rds/operations_deploy.go:166-182 | endpoint, port, backups, Multi-AZ and the time are recorded, each only when the response has it |
| RdsOperations.RdsOperations.CheckDeployment | internal/controller/rds/operations_deploy.go:104-221 | status, reply and AWS calls are those `RdsOperations.DeploymentChecked` gives: timeout, lookup, status update, status switch, with the failed statuses permanent, as ## Findings corrects |
| RdsOperations.RdsOperations.Deploy | internal/controller/rds/operations_deploy.go:32-100 | status, reply and AWS calls are those `RdsOperations.Deployed` gives: check an existing instance, otherwise create it and record the response |
| RdsOperations.RdsOperations.Upgrade | internal/controller/rds/operations_upgrade.go:33-113 | status, reply and AWS calls are those `RdsOperations.Upgraded` gives: redeploy a missing instance, wait for a busy one, otherwise request the differences |
| RdsOperations.CheckAddressesOneInstance | internal/controller/rds/operations_deploy.go:104-221 | every call the check makes is about the instance the status or the configuration names |
| RdsOperations.DeployAddressesOneInstance | internal/controller/rds/operations_deploy.go:32-100 | every call the deployment makes, the delegated check's included, is about the same instance |
| RdsOperations.UpgradeAddressesOneInstance | internal/controller/rds/operations_upgrade.go:33-113 | every call the upgrade makes, a redeployment's included, is about the same instance |
| RdsOperations.TimeoutIsStrict | internal/controller/rds/operations_deploy.go:120-130 | past the create timeout the check fails without calling AWS or changing the status; at exactly the timeout it still describes the instance |
| RdsOperations.DefaultCreateTimeoutIsFortyMinutes | internal/controller/rds/operations_deploy.go:120-125 | without a configured create timeout the limit is forty minutes |
| RdsOperations.DescribedStatusDecides | internal/controller/rds/operations_deploy.go:150-220 | after a successful lookup the reply is the status switch's on the described state, with the observed fields recorded |
| RdsOperations.DeployExistingDelegates | internal/controller/rds/operations_deploy.go:50-59 | an existing instance is not created again: deploying it is checking it with no time elapsed |
| RdsOperations.CreationRecorded | internal/controller/rds/operations_deploy.go:62-99 | a started creation is pending and records the instance with the configured sizing and the response's fields |
| RdsOperations.BusyInstanceWaits | internal/controller/rds/operations_upgrade.go:60-68 | an instance in a state that cannot be modified is waited for without modifying it |
| RdsOperations.NothingToModify | internal/controller/rds/operations_upgrade.go:70-77 | a modifiable instance that already matches the configuration is an immediate success |
| RdsOperations.NoDriftNoModifications | internal/controller/rds/operations_upgrade.go:157-208 | an instance reporting exactly the configured settings needs no modification |
| RdsOperations.StorageOnlyGrows | internal/controller/rds/operations_upgrade.go:170-177 | storage is never shrunk: an instance at least as large gets no storage change |
| RdsOperations.ModifyRequestsTheDifferences | internal/controller/rds/operations_upgrade.go:157-249 | the modify request names the instance, is applied at the next maintenance window, sets a setting exactly when the instance differs from the configuration in it, and carries each window only when configured |
| RdsOperations.MissingInstanceRedeployed | internal/controller/rds/operations_upgrade.go:49-56 | an instance that has disappeared is deployed afresh |
| Json.JsonEqualsMeaning | internal/controller/iam-role/operations_deploy.go:153-169 | two documents are equal exactly when both decode and their values as `interface{}` holds them (numbers as plain values, whatever their spelling) are the same |
| Json.JsonEqualsSymmetric | internal/controller/iam-policy/operations_deploy.go:275-292 | the comparison does not depend on the order of its arguments |
| Json.JsonEqualsInvalid | internal/controller/iam-policy/operations_deploy.go:275-292 | a document that does not decode equals nothing, itself included, so an update is triggered |
| Json.JsonEqualsIgnoresSpelling | internal/controller/iam-role/operations_deploy.go:153-169 | two texts that decode to the same value are equal however they are spelled (whitespace, key order) |
| Json.JsonEqualsTransitive | internal/controller/iam-role/operations_deploy.go:153-169 | the comparison is transitive |
| Json.JsonEqualsIgnoresNumberSpelling | internal/controller/iam-role/operations_deploy.go:153-169 | documents differing only in writing a number as `3` or `3.0` are equal |
| Json.SignedField | internal/controller/iam-role/config.go:31 | an integer field reads absent or null as 0, an integer literal within the type's range as its value, and fails on a fraction, an exponent or a value out of range |
| Json.FractionalLiteralRejected | internal/controller/iam-role/config.go:31 | a number written with a fraction or an exponent fails both `int32` and `int` fields |
| Json.OutOfRangeRejected | internal/controller/secret-push/config.go:93 | 2^31 fits an `int` field but not an `int32` one, and 2^63 fits neither |
| ConfigReader.OmittedAsIsEmpty | internal/controller/configreader/config.go:40-47 | an export without `as` decodes with the empty name |
| ConfigReader.ResolveConfigReaderConfig | internal/controller/configreader/config.go:54-71 | a decoding error is reported with the parse prefix, a decoded configuration breaking a field rule with the validation prefix, and the configuration is accepted, unchanged, exactly when it decodes and every rule holds |
| ConfigReader.ResolveConfigReaderStatus | internal/controller/configreader/config.go:74-86 | no stored status or a JSON null is the empty map, an object of strings is read as the exported values, and text that does not decode is an error |
| ConfigReader.OutputKey | internal/controller/configreader/operations_deploy.go:61-64 | a value is exported under `as` when given and under its ConfigMap key otherwise |
| ConfigReader.ExportKeysNames | internal/controller/configreader/operations_deploy.go:48-70 | a complete export adds exactly the output names of the exports to the status |
| ConfigReader.ReadSourcesNames | internal/controller/configreader/operations_deploy.go:28-72 | a complete read exports exactly the output names of all sources, on top of the starting status |
| ConfigReader.LaterExportWins | internal/controller/configreader/operations_deploy.go:48-70 | of two exports to the same name, the later one's value is kept |
| ConfigReader.RenamedExport | internal/controller/configreader/operations_deploy.go:61-66 | an export under a new name records the value under that name and not under the key |
| ConfigReader.ThreeExportsThreeEntries | internal/controller/configreader/operations_deploy.go:48-70 | three exports with distinct names give a status of three entries |
| ConfigReader.ConfigReaderOperations.Deploy | internal/controller/configreader/operations_deploy.go:21-77 | the status is rebuilt from empty by reading every source and key in order, and the result is success, or the first read error or missing key (with the keys the ConfigMap does have) |
| ConfigReader.ConfigReaderOperations.CheckDeployment | internal/controller/configreader/operations_deploy.go:81-83 | a deployment is always complete, since reading is synchronous |
| ConfigReader.DeployIgnoresPreviousStatus | internal/controller/configreader/operations_deploy.go:25-72 | what a successful deployment leaves holds exactly the output names of all sources, whatever the status was before |
| ConfigReader.UnreadableConfigMap | internal/controller/configreader/operations_deploy.go:36-45 | an unreadable first ConfigMap fails with its path and the read error and exports nothing |
| ConfigReader.ComponentReferencesConfigMap | internal/controller/configreader/controller.go:102-121 | true exactly when the component's configuration decodes and one of its sources names the ConfigMap's namespace and name |
| ConfigReader.NamesConfigMap | internal/controller/configreader/controller.go:113-120 | the loop over the sources answers true exactly when one of them has the ConfigMap's namespace and name |
| ConfigReader.ReferencingMeaning | internal/controller/configreader/controller.go:81-91 | the requests `ConfigReader.Referencing` gives are no more than the components, and a request is there exactly when some referencing component has that namespace and name |
| ConfigReader.ReferencingInOrder | internal/controller/configreader/controller.go:81-91 | the i-th request is that of the i-th referencing component, in list order, so there is exactly one request per referencing component (`ConfigReader.Referencing`) |
| ConfigReader.PositionsSound | internal/controller/configreader/controller.go:81-83 | the recorded positions are in range, in increasing order, and each names a referencing component |
| ConfigReader.PositionsComplete | internal/controller/configreader/controller.go:81-83 | every referencing component's position is recorded |
| ConfigReader.RequestsAtPositions | internal/controller/configreader/controller.go:81-85 | one request per recorded position, the i-th being that of the component at the i-th position |
| ConfigReader.MapConfigMapToComponents | internal/controller/configreader/controller.go:56-99 | no requests for an object that is not a ConfigMap or when listing fails; otherwise `ConfigReader.Referencing` of the listed components: one request per referencing component, in list order |
| ConfigReader.InvalidConfigNotMapped | internal/controller/configreader/controller.go:107-111 | a component whose configuration does not decode is never re-reconciled by the watch |
| Manifest.StringAt | internal/controller/manifest/config.go:40-57 | a string field's value, and "" when the field is absent or not a string |
| Manifest.TrackingLabelMeaning | internal/controller/manifest/operations_deploy.go:56-63 | the applied object carries the existing labels plus the tracking label set to "true", and keeps its apiVersion, kind, name, namespace and every field outside `metadata` |
| Manifest.TrackingLabelIdempotent | internal/controller/manifest/operations_deploy.go:56-63 | labelling an already labelled manifest changes nothing |
| Manifest.ParseGroupVersion | internal/controller/manifest/operations_deploy.go:142-147 | a string without "/" is a version of the core group, and parsing fails exactly when there is more than one "/" |
| Manifest.ParseGroupVersionString | internal/controller/manifest/operations_deploy.go:142-147 | printing a group-version and parsing it back gives it again |
| Manifest.GvkOf | internal/controller/manifest/operations_apply.go:43-50 | an unparsable apiVersion gives the empty kind; otherwise the kind is the manifest's |
| Manifest.ValidManifestIdentity | internal/controller/manifest/config.go:33-60 | a manifest is valid exactly when its apiVersion, kind and metadata name read as non-empty strings |
| Manifest.NonStringFieldsFail | internal/controller/manifest/config.go:40-47 | a number where apiVersion or kind should be fails validation, whatever else the manifest holds |
| Manifest.ResolveManifestConfig | internal/controller/manifest/config.go:95-110 | a decoding error is reported with the parse prefix, a configuration without manifests or with an invalid one with the validation prefix, and the configuration is accepted, unchanged, exactly when it decodes and is valid |
| Manifest.RefOf | internal/controller/manifest/config.go:80-92 | the recorded reference holds the manifest's apiVersion, kind, name and namespace |
| Manifest.ResolveManifestStatus | internal/controller/manifest/config.go:113-125 | no stored status is the empty record, a stored JSON null a nil status, and text that does not decode an error |
| Manifest.StatusRoundTrip | internal/controller/manifest/config.go:113-125 | a recorded reference decodes back to itself |
| Manifest.ResourceError | internal/controller/manifest/helpers.go:31-38 | the error names the resource by kind, namespace/name when it has a namespace and name alone otherwise, and ends with the message |
| Manifest.ApplyOptionsFor | internal/controller/manifest/helpers.go:13-18 | the given field manager, never forcing ownership of conflicting fields |
| ManifestOps.RecordFromMeaning | internal/controller/manifest/operations_apply.go:29-70 | the loop (`ManifestOps.RecordFrom`) records the references of the manifests processed before the first failure, in order, and stops at that failure |
| ManifestOps.RecordAll | internal/controller/manifest/operations_deploy.go:40-110 | at most one reference per manifest, each from a manifest whose step recorded it; no failure exactly when every manifest was recorded, and otherwise the failure is the next manifest's |
| ManifestOps.ApplyStep | internal/controller/manifest/operations_apply.go:29-70 | a manifest is recorded only after its apply succeeds; an unmapped kind, or a namespaced kind without a namespace, stops the loop with a permanent error |
| ManifestOps.DeployStep | internal/controller/manifest/operations_deploy.go:40-110 | a manifest without apiVersion, kind or name stops with an error giving its index; a recorded one is valid and was applied with the tracking label; a namespaced kind without a namespace stops the loop |
| ManifestOps.DeploymentReadiness | internal/controller/manifest/operations_deploy.go:140-230 | an unparsable apiVersion is broken, and a resource is ready exactly when it is reachable, found and kstatus computes Current for it |
| ManifestOps.DeploymentChecked | internal/controller/manifest/operations_deploy.go:197-239 | success exactly when every resource is ready, failure with the first broken resource's error exactly when one is broken, pending otherwise |
| ManifestOps.Readinesses | internal/controller/manifest/operations_deploy.go:131-232 | one readiness per recorded resource, in order |
| ManifestOps.AppliedCounting | internal/controller/manifest/operations_apply.go:92-165 | an unparsable apiVersion halts with a permanent error, a classified halt comes from a failed Get, and a kstatus compute error is never counted |
| ManifestOps.Countings | internal/controller/manifest/operations_apply.go:92-165 | one verdict per recorded resource, in order |
| ManifestOps.ReadyCount | internal/controller/manifest/operations_apply.go:133-136 | at most the number of resources, and all of them exactly when each is counted |
| ManifestOps.CountedAmongAll | internal/controller/manifest/operations_apply.go:92-136 | the first `i` resources are all counted as ready exactly when the count over them reaches `i` |
| ManifestOps.CountReady | internal/controller/manifest/operations_apply.go:92-165 | the loop stops at the first resource that halts the check, reporting its failure and its place with none halting before it; otherwise no resource halts and the count is the number of ready resources |
| ManifestOps.AppliedChecked | internal/controller/manifest/operations_apply.go:82-177 | nothing recorded is complete; failure with the first halted resource's error exactly when one halts; complete exactly when all are counted; otherwise in progress reporting "n of m resources ready" |
| ManifestOps.FirstHaltedStops | internal/controller/manifest/operations_apply.go:104-158 | the first halted resource decides the check's failure, whatever comes after it |
| ManifestOps.NoneHaltedCounts | internal/controller/manifest/operations_apply.go:166-176 | without a halt the check is complete with "All n resources ready" or in progress with the count |
| ManifestOps.DeletedInReverseMeaning | internal/controller/manifest/operations_delete.go:29-84 | `ManifestOps.DeletedInReverse` deletes exactly the reachable recorded resources, never more than were recorded |
| ManifestOps.DeletedInReverseAppend | internal/controller/manifest/operations_delete.go:29 | `ManifestOps.DeletedInReverse` deletes the resources in the reverse of the order they were recorded |
| ManifestOps.ManifestOperations.Apply | internal/controller/manifest/operations_apply.go:22-79 | the record is rebuilt from empty as `ManifestOps.RecordAll` with the apply step gives, and the result is the stopping failure or "Applied n resources" |
| ManifestOps.ManifestOperations.CheckApplied | internal/controller/manifest/operations_apply.go:82-177 | the result is `ManifestOps.AppliedChecked` of the recorded resources' verdicts, in order |
| ManifestOps.ManifestOperations.Deploy | internal/controller/manifest/operations_deploy.go:27-117 | the record is rebuilt from empty as `ManifestOps.RecordAll` with the deploy step gives, and the result is the stopping failure or pending |
| ManifestOps.ManifestOperations.CheckDeployment | internal/controller/manifest/operations_deploy.go:120-240 | the result is `ManifestOps.DeploymentChecked` of the recorded resources' readiness, in order |
| ManifestOps.ManifestOperations.Delete | internal/controller/manifest/operations_delete.go:18-92 | always succeeds, and deletes exactly the reachable recorded resources, last recorded first, as `ManifestOps.DeletedInReverse` gives |
| ManifestOps.ManifestOperations.CheckDeletion | internal/controller/manifest/operations_delete.go:97-175 | pending exactly when some recorded resource is still found, succeeded otherwise |
| ManifestOps.RecordedBeforeFailure | internal/controller/manifest/operations_deploy.go:103-108 | `Apply` and `Deploy` record the references of the applied manifests, each at its manifest's index |
| ManifestOps.DeployReportsIndex | internal/controller/manifest/operations_deploy.go:42-46 | a manifest without an identity stops `Deploy` with an error giving its index, after the earlier manifests were recorded |
| ManifestOps.ProgressingIsPending | internal/controller/manifest/operations_deploy.go:197-232 | one resource still progressing, with none broken, leaves the deployment pending |
| ManifestOps.BrokenResourceFails | internal/controller/manifest/operations_deploy.go:197-232 | a failed, terminating or vanished resource fails the check whatever the other resources are |
| ManifestOps.ComputeErrorSkipped | internal/controller/manifest/operations_apply.go:122-127 | a kstatus compute error keeps the resource out of the count and leaves the deployment check pending, never failed |
| ManifestOps.FailedGetIsGone | internal/controller/manifest/operations_delete.go:148-151 | a resource whose Get fails is not counted as still existing |

## Left out

- JSON decoding: `encoding/json` is not modelled. A raw document enters as its text together with its decode outcome, and `json.Valid` is whether that outcome exists. Field reading follows the `encoding/json` rules for absent keys, nulls, mismatched types and integer fields (an integer literal within the field's range, as `strconv.ParseInt` reads it). Numbers are exact values: `float64` rounding of a number decoded into `interface{}` is not modelled. When several fields fail, the model reports the first in the struct's field order, and the text of a type error is not reproduced. Case-insensitive key matching is not modelled.
- Struct-tag validation (`go-playground/validator`): each rule is an explicit predicate. The error text names only the first failing field, and the validator's own message format is not reproduced.
- `HelmReleaseConfig.IsUrl`: the `url` rule is modelled by the shape `url.Parse` gives the lower-cased text (a scheme, then a host, fragment or opaque part). The errors `url.Parse` raises on control characters, bad percent-escapes or a malformed host or port are not modelled, nor is the request-URI parse the rule applies to `file:` URLs.
- `Strings.ToLower`: only the letters that lower to an ASCII letter are folded (the ASCII capitals, the Kelvin sign U+212A and the dotted capital I U+0130). Other letters are kept as they are. Every marker and phrase looked for is ASCII, so this cannot change whether one is found; `IsTransientError`, `FindMarker`, `TransientAnyCase`, `AlreadyBeingDeletedAnyCase` and `RepeatedDeleteSucceeds` rely only on this folding.
- `BaseController.Creation`: `util.SetClaimedStatus`, `SetDeployingStatus` and the other status setters are not part of this model. Each is modelled by what it sets: the phase and message, and for a claim the claimant and the time, as the Helm controller's own claim records them.
- Durations: they are whole seconds. `time.ParseDuration` is a parameter, and time is an explicit clock reading.
- Calls into Helm, Kubernetes and AWS: each enters as its answer, or as a function from the request to its answer. Retries, contexts and logging are left out. So are `IsRetryableKubernetesError` and the AWS `isRetryable` helpers, whose verdicts appear as an error being classified or not.
- Go map iteration order: the loops that range over a map pick the next key by choice, so the proved properties hold for every order. These are `availableTypes`, `toIAMTags`, the secret-push field loop and the eviction scan.
- Go's `%q` quoting: it is modelled as plain quotes, with no escaping.
- `IndexCache`: the background cleanup goroutine, `Close` and the read-write mutex are not modelled; the operations are sequential.
- Helm SDK plumbing: install, upgrade and uninstall actions, temporary directories, chart loading, file locks (`WithLock` is "run, or fail") and the readiness checker are not modelled. `internal/controller/helm/operations*.go` is not part of this model.
- `IamPolicy`: the controller's `Deploy` calls `getPolicyByName` with only a context, although the method also takes a name and a path, so that line does not compile as written. The model passes the configured name and path.
- IAM call sequencing beyond the modelled decisions: the `operations.go`/`operations_delete.go` files of `iamrole` and `internal/controller/iam-role`, the `iampolicy` provider wrappers, and the secret-push AWS and operations files are not part of this model.
- `IamRole.DetachedCountWhenNothingDetached`: the detached count after a failed detach is modelled literally as the source computes it, not as the count of detached policies.
- RDS status names: the constants file is not part of this model, so the RDS instance states AWS documents are used.
- `RdsOperations`: `checkInstanceExists`, `buildCreateDBInstanceInput` and `handleOperationError` are called but not defined in the controller's files. They are modelled as an answer of the environment, as the create call for the instance identifier, and as `errorResult`.
- `internal/controller/rds/operations_delete.go` is a placeholder with a garbled header and duplicate definitions; the controller's RDS deletion is not modelled.
- `rds/aws_rds.go` `modifyInstance` and the package's `Upgrade` flow are not modelled, nor is the generic error classifier that `checkHealth` hands lookup failures to (`HealthCheckResultForError`).
- `RdsConversion`: 32-bit widths are not modelled. Values are carried as decoded, and no conversion computes with them.
- `RdsOperations.RequiredModifications`: its own ensures states only the bound of five modifications. What each modification means and their order are stated by `RequiredModificationsMeaning` and `RequiredModificationsOrdered`.
- `IamPolicy.Deployed`: a failed policy lookup is returned to the caller as a plain error (internal/controller/iam-policy/operations_deploy.go:30-33), while failed create and version calls go through `ActionResultForError` and its classifier. The model reports all three as `ActionError` with the same message, so it does not tell a returned error from a classified action failure, and the classifier's retryable verdict is not modelled.
- `ConfigReader`: `Delete` and `CheckDeletion` are no-ops in the source and are not modelled. The Kubernetes error classification of a failed read or a missing key is the generic `ActionError`.
- `Manifest.ParseGroupVersion`: it models apimachinery's `schema.ParseGroupVersion`, which the repository calls but does not define. The REST mapper and the dynamic client are cluster answers: the namespace scoping of Get, Apply and Delete is an answer of the mapper.
- `ManifestOps`: `successResult`, `errorResult` and `pendingResult` are not defined in the provider's files, so they are the outcomes `Succeeded`, `Failed` and `Pending`. The answer of each Delete call is only logged, so `Delete` returns the calls it made.
- Registration, wiring and the e2e tests are not part of this model. This covers `register.go`, `SetupWithManager`, the operations factories and the AWS client construction.

## Findings

| source | as written | input that shows it | evidently intended | confidence | as-written member | corrected member |
|---|---|---|---|---|---|---|
| internal/controller/helm/source/http/index_cache.go:164-175 | `evictOldest` uses the empty name as "nothing chosen yet", so whenever the scan holds the entry named "" it replaces it with the next entry visited | entries "" accessed at 1 and "a" at 5, visited in that order: "a" is evicted although "" is older | evict the least recently accessed entry whatever its name | not executed | HelmIndexCache.ScanAsWrittenEvictsRecent | HelmIndexCache.IndexCache.EvictOldest |
| internal/controller/rds/operations_deploy.go:208-214 | a failed deployment status goes through `errorResult`, which retries any error whose message holds a transient marker (internal/controller/rds/operations.go:146-168, 211-234) | status "incompatible-network": the message ends in "network", a marker, so the failure is returned as a transient error and retried on every pass until the create timeout (40 minutes by default), then failed as timed out | the failed statuses are permanent failures recorded on the operation and not retried | not executed | RdsOperations.IncompatibleNetworkRetriedAsWritten | RdsOperations.DeploymentStatusReply |
