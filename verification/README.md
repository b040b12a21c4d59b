# Brooklyn REST API launcher: launch decisions, in Dafny

This project models the decisions `BrooklynRestApiLauncher` takes when it starts the
Brooklyn REST API in an embedded web server, with the web server, JAAS and the
filesystem taken out:

- **locating packaged content** (`findMatchingFile`, `findFirstMatchingFile`,
  `findJsguiWebappInSource`): an existing exact path wins; otherwise the newest entry
  of the parent directory whose name matches the glob in the last path segment;
  across several patterns, the first pattern that finds something;
- **static content** (`installWar`): the GUI found in source, else a copy of the
  bundled `brooklyn.war`, else a temporary directory with a placeholder page;
- **security** (the security branch of `start`): the security descriptor, the no-op
  security handler, or nothing, and the write of an override provider into the
  configuration store;
- **catalog source**: the scanning catalog when forced, else the empty catalog;
- **bind policy** (`startServer`): all interfaces when security options exist,
  otherwise loopback with the Anyone provider forced into the configuration, and
  high availability disabled on request;
- **the provider list and the servlet filter list** installed around the API;
- the `SensorSummary` value type of the sandbox REST API: its two constructors,
  `forCatalog`, the link URIs, `equals` and `hashCode`.

Modules follow these components: `Outcomes` (Brooklyn's `Maybe`, and Java exceptions
as data), `JavaPaths` (the parts of `java.io.File` the locator relies on),
`FileLocator`, `WebContent`, `BrooklynConfig`, `SecurityPolicy`, `CatalogSource`,
`BindPolicy`, `FilterChain`, `Launcher` (the builder and `start`) and
`SensorSummaries`. The filesystem is an immutable snapshot: the working directory,
the set of existing regular files, and each existing directory with its listing of
(name, last-modified) pairs in listing order. The glob matcher, the check for
security options, the port probe, the CORS feature flag and the existence of the
bundled archive are parameters.

Behaviour of the code worth knowing, which the model keeps:

- `start` gives a `WebAppContext` the no-op security handler both when the Anyone
  provider is requested and when no provider is configured; a custom context of
  another kind gets nothing in either case (`SecurityPolicy.ResolveSecurity`).
- Adding the security descriptor casts the context to `WebAppContext`, so a custom
  context of another kind with a security configuration throws
  `ClassCastException`; the model returns `Thrown(ClassCast)` there.
- `findMatchingFile` throws for a missing bare file name and for a parent that exists
  but cannot be listed, and `findFirstMatchingFile` passes the exception on; see
  Findings.
- The port is whatever `Networking.nextAvailablePort(8081)` returns; the model takes
  that function as given.
- Where the server binds depends on the security options in the configuration, not on
  whether the security descriptor was installed. An Anyone override over a configured
  provider of another kind, or security options without any provider key, gives a
  server on all interfaces with only the no-op handler
  (`Launcher.AnyoneOverrideOnAllInterfaces`, `Launcher.OptionsWithoutProviderOnAllInterfaces`).
  The converse holds: when the options check notices a provider, the descriptor
  implies all interfaces (`Launcher.DescriptorImpliesAllInterfaces`).

The filesystem snapshot may be checked for consistency with `FileSystem.Valid`: a path
is a regular file, a listable directory or an unlistable directory, and every listed
entry is a plain name that exists inside its directory. The example snapshots of the
lemmas satisfy it.

## Model

| member | source | states |
|---|---|---|
| JavaPaths.LastSeparator | rest/rest-server/src/test/java/org/apache/brooklyn/rest/BrooklynRestApiLauncher.java:416 | the index found is a separator and no separator follows it, or -1 when the path has none |
| JavaPaths.ParentOf | rest/rest-server/src/test/java/org/apache/brooklyn/rest/BrooklynRestApiLauncher.java:416 | `getParentFile` is null exactly for a bare name or the root, and otherwise a proper prefix of the path |
| JavaPaths.NameOf | rest/rest-server/src/test/java/org/apache/brooklyn/rest/BrooklynRestApiLauncher.java:422 | `getName` is the separator-free suffix of the path that follows its last separator (the whole path when it has none) |
| JavaPaths.AbsolutePath | rest/rest-server/src/test/java/org/apache/brooklyn/rest/BrooklynRestApiLauncher.java:430 | an absolute path is kept; a relative one becomes the working directory, a separator (none after the root or before an empty path), then the path |
| JavaPaths.SplitJoin | rest/rest-server/src/test/java/org/apache/brooklyn/rest/BrooklynRestApiLauncher.java:416-422 | the parent and name of a directory joined with a name are that directory and that name |
| JavaPaths.JoinSplit | rest/rest-server/src/test/java/org/apache/brooklyn/rest/BrooklynRestApiLauncher.java:416-422 | joining the parent and the (non-empty) name of a normalised path gives the path back |
| FileLocator.NewestMatch | rest/rest-server/src/test/java/org/apache/brooklyn/rest/BrooklynRestApiLauncher.java:419-427 | the scan keeps nothing iff no entry matches the glob; otherwise an entry that matches, is at least as new as every match, and is strictly newer than every earlier match (ties keep the first) |
| FileLocator.NewestMatchUnique | rest/rest-server/src/test/java/org/apache/brooklyn/rest/BrooklynRestApiLauncher.java:425-427 | at most one entry meets that description, so the choice among ties is deterministic |
| FileLocator.FindMatchingFileAsWritten | rest/rest-server/src/test/java/org/apache/brooklyn/rest/BrooklynRestApiLauncher.java:413-431 | an existing path is returned as given; the call throws a NullPointerException exactly when the path is missing and its parent is null or exists without being listable (a regular file or an unreadable directory) |
| FileLocator.FindMatchingFile | rest/rest-server/src/test/java/org/apache/brooklyn/rest/BrooklynRestApiLauncher.java:413-431 | the corrected locator, defined from the parent's listing and the newest-match scan: an existing path is returned as given; the result is absent iff the path is missing and no entry of a listable parent matches; otherwise it is the absolute path of the newest match |
| FileLocator.CorrectedAgreesWhenNoFault | rest/rest-server/src/test/java/org/apache/brooklyn/rest/BrooklynRestApiLauncher.java:413-431 | the two independently written locators agree wherever the written code returns |
| FileLocator.CorrectedAbsentWhenFault | rest/rest-server/src/test/java/org/apache/brooklyn/rest/BrooklynRestApiLauncher.java:416-426 | where the written code throws, the corrected locator returns absent |
| FileLocator.ExactPathIgnoresListings | rest/rest-server/src/test/java/org/apache/brooklyn/rest/BrooklynRestApiLauncher.java:414-415 | for an existing path, the result is that path whatever the directory listings contain |
| FileLocator.BareNameThrows | rest/rest-server/src/test/java/org/apache/brooklyn/rest/BrooklynRestApiLauncher.java:416-418 | a missing bare name (`brooklyn.war`) makes the written code throw; the corrected locator returns absent |
| FileLocator.ParentIsFileThrows | rest/rest-server/src/test/java/org/apache/brooklyn/rest/BrooklynRestApiLauncher.java:418-426 | a path under a regular file (`README.md/x.war`) makes the written code throw; the corrected locator returns absent |
| FileLocator.FindFirstMatchingFile | rest/rest-server/src/test/java/org/apache/brooklyn/rest/BrooklynRestApiLauncher.java:400-406 | over the corrected locator: absent iff every pattern finds nothing; otherwise the result of some pattern before which every pattern found nothing |
| FileLocator.FindFirstMatchingFileAsWritten | rest/rest-server/src/test/java/org/apache/brooklyn/rest/BrooklynRestApiLauncher.java:400-406 | over the written locator: nothing found without exception iff every pattern gives that; otherwise the outcome (a path or an exception) of the first pattern that does not |
| FileLocator.FindFirstAgreesWhenNoFault | rest/rest-server/src/test/java/org/apache/brooklyn/rest/BrooklynRestApiLauncher.java:400-406 | when no pattern throws, the written and the corrected search give the same result |
| FileLocator.BareNameAbortsSearch | rest/rest-server/src/test/java/org/apache/brooklyn/rest/BrooklynRestApiLauncher.java:400-418 | with a missing `brooklyn.war` before `t/*.war` and `t` holding `a.war`, the written search throws at the first pattern while the corrected one returns `/w/t/a.war` |
| FileLocator.FindFirstIsEarliest | rest/rest-server/src/test/java/org/apache/brooklyn/rest/BrooklynRestApiLauncher.java:400-406 | the first pattern that finds something decides the result |
| WebContent.AsWrittenSkipsArchiveThreeUp | rest/rest-server/src/test/java/org/apache/brooklyn/rest/BrooklynRestApiLauncher.java:383-384 | in the written search the three-levels-up archive pattern is not the two-levels-up one with one more `../` |
| WebContent.SearchChangesOnlyThreeUpArchive | rest/rest-server/src/test/java/org/apache/brooklyn/rest/BrooklynRestApiLauncher.java:378-386 | the corrected search differs from the written one only in the three-levels-up archive pattern |
| WebContent.SearchCoversThreeUp | rest/rest-server/src/test/java/org/apache/brooklyn/rest/BrooklynRestApiLauncher.java:378-386 | in the corrected search the three-levels-up archive pattern is the two-levels-up one with one more `../` |
| WebContent.FindJsguiWebappInSourceAsWritten | rest/rest-server/src/test/java/org/apache/brooklyn/rest/BrooklynRestApiLauncher.java:374-387 | the written search list under the written locator finds nothing without exception iff each of its eight patterns does |
| WebContent.FindJsguiWebappInSource | rest/rest-server/src/test/java/org/apache/brooklyn/rest/BrooklynRestApiLauncher.java:374-387 | the corrected search list under the corrected locator is absent iff none of the eight candidate locations finds anything |
| WebContent.MissingDirFindsNothing | rest/rest-server/src/test/java/org/apache/brooklyn/rest/BrooklynRestApiLauncher.java:416-429 | a pattern whose directory does not exist finds nothing, and the written locator does not throw for it |
| WebContent.ThreeUpCheckoutValid | rest/rest-server/src/test/java/org/apache/brooklyn/rest/BrooklynRestApiLauncher.java:378-386 | the example checkout is a consistent snapshot: its archive is listed in the directory and exists as a file |
| WebContent.ListedDirFindsNewest | rest/rest-server/src/test/java/org/apache/brooklyn/rest/BrooklynRestApiLauncher.java:418-430 | a glob in a listable directory finds the absolute path of the newest matching entry |
| WebContent.AsWrittenPatternFindsNothing | rest/rest-server/src/test/java/org/apache/brooklyn/rest/BrooklynRestApiLauncher.java:378-386 | in a checkout whose only GUI archive is three levels up, each written pattern finds nothing under the written locator, without exception |
| WebContent.IntendedFindsArchiveThreeUp | rest/rest-server/src/test/java/org/apache/brooklyn/rest/BrooklynRestApiLauncher.java:378-386 | in that checkout the corrected search returns the archive's absolute path |
| WebContent.ArchiveThreeUpMissedAsWritten | rest/rest-server/src/test/java/org/apache/brooklyn/rest/BrooklynRestApiLauncher.java:378-386 | in that checkout the written search finds nothing (and throws nowhere) while the corrected one is present |
| WebContent.ChooseWar | rest/rest-server/src/test/java/org/apache/brooklyn/rest/BrooklynRestApiLauncher.java:267-272 | the source GUI iff wanted and found; the bundled archive copy iff not that and the archive exists; otherwise the temporary directory with the placeholder page |
| WebContent.ChooseWarIsPrecedence | rest/rest-server/src/test/java/org/apache/brooklyn/rest/BrooklynRestApiLauncher.java:267-272 | the choice is the first available of source GUI and bundled archive, falling back to the placeholder |
| SecurityPolicy.ResolveSecurity | rest/rest-server/src/test/java/org/apache/brooklyn/rest/BrooklynRestApiLauncher.java:199-212 | the descriptor is installed iff the decision table says "secured"; the no-op handler iff not and the context is a `WebAppContext`; nothing iff the context is plain; a plain context that needs the descriptor throws `ClassCastException`; the store records a secured override's name and is otherwise unchanged |
| SecurityPolicy.AnyoneOverrideWins | rest/rest-server/src/test/java/org/apache/brooklyn/rest/BrooklynRestApiLauncher.java:202-212 | an Anyone override never installs the descriptor and never writes the store, whatever is configured |
| SecurityPolicy.OtherOverrideSecures | rest/rest-server/src/test/java/org/apache/brooklyn/rest/BrooklynRestApiLauncher.java:204-209 | any other override installs the descriptor, records its name, and the configured provider plays no part |
| SecurityPolicy.NoOverrideNoWrite | rest/rest-server/src/test/java/org/apache/brooklyn/rest/BrooklynRestApiLauncher.java:204-209 | without an override the store is left as it was |
| CatalogSource.ChooseCatalog | rest/rest-server/src/test/java/org/apache/brooklyn/rest/BrooklynRestApiLauncher.java:214-221 | the catalog URL is always set, to the scanning BOM iff forced (else the empty catalog); class-path scanning iff forced; no other key changes |
| CatalogSource.CatalogKeepsSecurityProvider | rest/rest-server/src/test/java/org/apache/brooklyn/rest/BrooklynRestApiLauncher.java:214-221 | the catalog step leaves the security provider setting untouched |
| BindPolicy.DecideBind | rest/rest-server/src/test/java/org/apache/brooklyn/rest/BrooklynRestApiLauncher.java:294-310 | all interfaces iff a management context has security options; the port asked of the probe is 8081; HA disabled iff there is a management context and it is requested; on loopback the Anyone provider is written and nothing else changes |
| BindPolicy.ExposedOnlyWithSecurityOptions | rest/rest-server/src/test/java/org/apache/brooklyn/rest/BrooklynRestApiLauncher.java:296-305 | the server is either on all interfaces with security options present, or on loopback with the Anyone provider configured |
| FilterChain.RestProviders | rest/rest-server/src/test/java/org/apache/brooklyn/rest/BrooklynRestApiLauncher.java:237-250 | the seven baseline providers in order, then the CORS filter last iff its flag is on |
| FilterChain.ProvidersDistinctAndGuarded | rest/rest-server/src/test/java/org/apache/brooklyn/rest/BrooklynRestApiLauncher.java:238-245 | no provider is installed twice, and entitlement context and CSRF checking are always installed |
| Launcher.FiltersReplaceNeverAppend | rest/rest-server/src/test/java/org/apache/brooklyn/rest/BrooklynRestApiLauncher.java:133-139 | the servlet filters default to request tagging then logging, and the last `filters(...)` call alone decides the list |
| Launcher.ServletContextFor | rest/rest-server/src/test/java/org/apache/brooklyn/rest/BrooklynRestApiLauncher.java:231-256 | the servlet context serves the content `installWar` chooses from the GUI search, the bundled archive and the placeholder; carries the REST provider list in order (entitlement and CSRF always, CORS iff its flag is on) and the builder's filter list unchanged |
| Launcher.Start | rest/rest-server/src/test/java/org/apache/brooklyn/rest/BrooklynRestApiLauncher.java:168-229 | `start` throws iff a plain custom context meets a secured configuration; a custom context takes precedence over the mode; the descriptor follows the decision table, otherwise a `WebAppContext` gets the no-op handler and a plain context nothing; the server binds all interfaces iff the store it reads (override recorded, catalog URL set) has security options, keeping that store, and otherwise binds loopback with Anyone written into it; catalog scanning, HA and port follow the builder and the probe |
| Launcher.DefaultLaunchIsLocalAndOpen | rest/rest-server/src/test/java/org/apache/brooklyn/rest/BrooklynRestApiLauncher.java:168-229 | a default launch without security configuration binds loopback on the probed port from 8081, configures Anyone, uses the no-op handler, disables HA, loads the empty catalog, and serves the placeholder when no GUI or archive is found |
| Launcher.OverrideLaunchIsExposedAndSecured | rest/rest-server/src/test/java/org/apache/brooklyn/rest/BrooklynRestApiLauncher.java:199-229 | a launch with a non-Anyone override installs the descriptor, records the override and binds all interfaces |
| Launcher.LaunchBindsBySecurityOptions | rest/rest-server/src/test/java/org/apache/brooklyn/rest/BrooklynRestApiLauncher.java:296-310 | every successful launch is on loopback with Anyone configured, or on all interfaces with security options present |
| Launcher.DescriptorImpliesAllInterfaces | rest/rest-server/src/test/java/org/apache/brooklyn/rest/BrooklynRestApiLauncher.java:204-305 | when the options check notices a provider, a context with the security descriptor is always on all interfaces |
| Launcher.AnyoneOverrideOnAllInterfaces | rest/rest-server/src/test/java/org/apache/brooklyn/rest/BrooklynRestApiLauncher.java:202-212 | an Anyone override over another configured provider binds all interfaces with only the no-op handler, keeping the configured provider |
| Launcher.OptionsWithoutProviderOnAllInterfaces | rest/rest-server/src/test/java/org/apache/brooklyn/rest/BrooklynRestApiLauncher.java:204-212 | security options without a provider key bind all interfaces with only the no-op handler |
| SensorSummaries.FromJson | sandbox/rest/src/main/java/brooklyn/rest/api/SensorSummary.java:24-34 | the JSON constructor keeps name, type and description, and keeps the links (null iff given null) |
| SensorSummaries.ForEntity | sandbox/rest/src/main/java/brooklyn/rest/api/SensorSummary.java:36-49 | the entity constructor takes the sensor's fields and has exactly the links `self`, `application` and `entity` |
| SensorSummaries.LinksNest | sandbox/rest/src/main/java/brooklyn/rest/api/SensorSummary.java:41-47 | application link is `/v1/applications/` plus the name, entity link extends it with `/entities/` and the id, self link extends that with `/sensors/` and the sensor name; each is a prefix of the next |
| SensorSummaries.SelfLinkIdentifiesSensor | sandbox/rest/src/main/java/brooklyn/rest/api/SensorSummary.java:41-45 | within one entity, equal self links mean equal sensor names as rendered into the URI |
| SensorSummaries.ForCatalog | sandbox/rest/src/main/java/brooklyn/rest/api/SensorSummary.java:51-54 | a catalog summary has null links and the sensor's name, type and description |
| SensorSummaries.CatalogSummaryHasNoLinks | sandbox/rest/src/main/java/brooklyn/rest/api/SensorSummary.java:51-54 | a catalog summary never equals an entity summary of the same sensor |
| SensorSummaries.Equals | sandbox/rest/src/main/java/brooklyn/rest/api/SensorSummary.java:73-89 | the null-safe field-by-field comparison holds iff the other object is non-null and the same summary |
| SensorSummaries.EqualsIsEquivalence | sandbox/rest/src/main/java/brooklyn/rest/api/SensorSummary.java:73-89 | `equals` is reflexive, symmetric and transitive |
| SensorSummaries.WrapStep | sandbox/rest/src/main/java/brooklyn/rest/api/SensorSummary.java:94-96 | wrapping the intermediate `int` of `31 * h + f` does not change the wrapped end result |
| SensorSummaries.HashCode | sandbox/rest/src/main/java/brooklyn/rest/api/SensorSummary.java:92-97 | the step-by-step `int` computation equals the 31-polynomial of the field hashes (0 for null) reduced once to 32 bits |
| SensorSummaries.EqualSummariesHashEqually | sandbox/rest/src/main/java/brooklyn/rest/api/SensorSummary.java:92-97 | equal summaries have equal hash codes |

## Left out

- The Jetty server (`Server`, `NetworkConnector`, `server.start()`, the four-argument `startServer`) and the JAAS wiring (`initJaas`, `initJaasLoginService`): foreign engine and library calls. `start` is modelled up to the point where the server would be started.
- Launcher.ServletContextFor: looks the GUI up with the corrected search list and the corrected locator (see Findings), so it never throws and finds the archive three levels up; the written search is `WebContent.FindJsguiWebappInSourceAsWritten`.
- Launcher.Start: builds its servlet context with `Launcher.ServletContextFor`, so it models the launcher with the corrected GUI search, not the one that can throw or miss the archive three levels up.
- The real filesystem and classpath: existence checks, listings and modification times come from a snapshot (`FileSystem.Valid` states its consistency, but the operations do not require it); `Os.writeToTempFile` and `createTempWebDirWithIndexHtml` are represented by the paths they would return, and `deleteOnExit` is not modelled.
- `WildcardGlobs.isGlobMatched`, `BrooklynWebConfig.hasNoSecurityOptions`, `Networking.nextAvailablePort`, `BrooklynFeatureEnablement.isEnabled` and `ResourceUtils.doesUrlExist`: code that is not part of this model, taken as given functions or flags.
- `webXmlContextHandler` and `findRestApiWar` (the web-xml start mode, marked beta): the context it builds is treated as an opaque `WebAppContext`.
- Platform launch (`LocalManagementContext`, `BrooklynCampPlatformLauncherNoServer`, `noteStartupComplete`): a missing management context is replaced by one whose configuration is a parameter; the casts of the management context to `LocalManagementContext` and of its configuration to `BrooklynProperties` are assumed to succeed; setting the base class path for scanning is a flag.
- The shutdown listener: the class never assigns it, so `ShutdownHandlerProvider` is modelled without its (null) argument and `setServer` never runs. Constructor arguments of the other providers are not modelled either.
- Logging, the `summary` strings, `main` and the static `startRestResourcesVia...` helpers. `launcher()` is `NewLauncher`; `launcherServlet()` and `launcherWebXml()` are `NewLauncher().Mode(...)`.
- Provider classes are identified by their names (one class loader), and configuration values are strings: a non-string value stored under the provider key is not modelled.
- `java.io.File` normalisation: the model splits paths as given; Java would first collapse repeated separators and drop a trailing one. Windows paths are not modelled.
- The single-use life cycle of `start` (calling it twice) is not modelled.
- SensorSummaries.FromJson: the defensive copy of the link map is not observable between immutable values, so the contract states only that the links are kept; `ImmutableMap.copyOf` rejecting null keys or values is not modelled (the model's maps hold none).
- SensorSummaries.HashCode: `String.hashCode` and the link map's `hashCode` (which depends on `URI.hashCode`) are parameters, not computed.
- SensorSummaries.Equals: comparison with an object of another class (which returns false) is not modelled; the other object is a summary or null.
- `toString` of `SensorSummary` and the validation done by `URI.create`: URIs are kept as strings.

## Findings

| source | as written | input that shows it | evidently intended | confidence | as-written member | corrected member |
|---|---|---|---|---|---|---|
| rest/rest-server/src/test/java/org/apache/brooklyn/rest/BrooklynRestApiLauncher.java:416-418 | a file name without a separator has a null parent, and `dir.exists()` dereferences it | `findMatchingFile("brooklyn.war")` when that file is missing from the working directory throws NullPointerException | an absent result, as the method's documentation says | medium; not executed | FileLocator.BareNameThrows | FileLocator.FindMatchingFile |
| rest/rest-server/src/test/java/org/apache/brooklyn/rest/BrooklynRestApiLauncher.java:418-426 | a parent that exists but cannot be listed (a regular file, or a directory without read permission) lists as null, and the loop dereferences the null array | `findMatchingFile("README.md/x.war")` with `README.md` a regular file throws NullPointerException | an absent result | medium; not executed | FileLocator.ParentIsFileThrows | FileLocator.FindMatchingFile |
| rest/rest-server/src/test/java/org/apache/brooklyn/rest/BrooklynRestApiLauncher.java:384 | the pattern `../../..brooklyn-ui/target/*.war` lacks the separator after the third `..`, so the GUI archive three levels up is never searched | a checkout whose only GUI is `../../../brooklyn-ui/target/brooklyn-ui.war`: the search is absent | `../../../brooklyn-ui/target/*.war`, matching the folder pattern three levels up | high; not executed | WebContent.ArchiveThreeUpMissedAsWritten | WebContent.FindJsguiWebappInSource |
