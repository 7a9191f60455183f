# plakar plugin subsystem — a Dafny model

This project models how plakar installs, checks, builds, packages, lists and
removes plugins, and the command-line and HTTP API decisions around them:

- **Connector registries** (`plugins.dfy`, module `Plugins`). `Load` installs
  each protocol of each connector of a plugin manifest in the importer,
  exporter or storage registry. It stops at the first error and undoes
  nothing. `Unload` unregisters every declared protocol and returns only the
  last result. The registries are one class, `Registries`, whose three maps
  the methods change in place; each method is proved against a pure
  specification (`LoadSpec`, `UnloadSpec`).
- **Package-manager hooks** (`pkghooks.dfy`, module `PkgHooks`). These are the
  preload guard against protocols that are already served, the load and
  unload hooks that report on standard error, and the plugin and cache
  directories.
- **Plugin manifest** (`manifest.dfy`, module `Manifests`). These are the
  connector declarations and their (type, protocol) pairs.
- **`pkg create`** (`create.dfy`, module `PkgCreate`). It resolves the
  manifest path, names the output, and runs the fixed chain of engine steps
  that builds a ptar archive.
- **Package importer** (`pkgimporter.dfy`, module `PkgImporter`). This is the
  stream of scan results `pkg create` archives: the root, then for each file
  its ancestor directories and its own record, or one error. The channel is
  an object that records what was sent.
- **`pkg build`** (`build.dfy`, module `PkgBuild`) and recipe lookup
  (`fetch.dfy`, module `PkgFetch`). These cover clone, make and create in a
  temporary directory that is always removed.
- **`pkg list`** (`list.dfy`, module `PkgList`).
- **`main.go` decisions** (`cli.dfy`, module `PlakarMain`). These are the
  `-cpu` default and bound, repository selection, the passphrase sources, and
  the grouped subcommand listing.
- **HTTP API** (`api.dfy`, module `Api`, and `integrations.dfy`, module
  `Integrations`). These are the mapping from errors to status codes, the
  bearer-token middleware, the catch-all endpoint, and the plugin
  install/uninstall endpoints.
- **Supporting modules.** `paths.dfy` (module `Paths`) models Go's
  `path/filepath` on Unix: `Split`, `Join`, `Clean`, `Dir`, `Base`.
  `gostrings.dfy` (module `GoStrings`) models `strings.Join` and `%q` quoting.
  `wrappers.dfy` holds `Option` and `Result`.

Everything outside these files is a parameter of the model. That covers the
file system, git, make, the snapshot engine, the package manager, JSON
decoding and encoding, and the environment.

Three behaviours of the code are stated as they are, or marked where the
model cannot follow:

- Recipe lookup panics for every URL and every bare name, on a nil reader
  (fetch.go:51). The model returns `NoReader` there instead (see
  `PkgFetch.GetRecipeSpec` under "Left out").

- The importer's "below the manifest" test is a string-prefix test
  (`PkgImporter.PrefixNotContainmentPackaged`).
- The preload guard checks storage connectors under the type `"store"`, while
  `Load` registers them under `"storage"`
  (`PkgHooks.StoreStorageMismatchExample`).

## Model

| member | source | states |
|---|---|---|
| Plugins.Registries.Register | plugins/plugin.go:19 | A registry refuses a protocol it already serves and leaves the registries unchanged; otherwise it adds exactly that protocol, in that registry only. It succeeds exactly when the protocol was not among its `Backends()`, which then gain exactly that protocol; the other registries' `Backends()` are unchanged. |
| Plugins.Registries.Unregister | plugins/plugin.go:99-103 | A registry removes a protocol it serves and nothing else; a protocol it does not serve is refused and nothing changes. It succeeds exactly when the protocol was among its `Backends()`, which afterwards lack it; the other registries' `Backends()` are unchanged. |
| Plugins.RegisterConnector | plugins/plugin.go:18-61 | `RegisterImporter`, `RegisterExporter` and `RegisterStorage` install, in the registry of their role, a factory capturing the executable, the arguments and the flags. The registry's refusal is returned unchanged. |
| Plugins.LoadPair | plugins/plugin.go:73-83 | The switch on the connector type: it registers in the role's registry, or fails with "unknown connector type" and changes nothing. |
| Plugins.Load | plugins/plugin.go:63-91 | After `Load` the registries and its error are exactly `LoadSpec` applied to the registries before the call. |
| Plugins.ExeInPackage | plugins/plugin.go:65 | A connector whose executable is a relative canonical path `r1/.../rn` is started from `<pkgdir>/r1/.../rn`. |
| Plugins.LoadKeeps | plugins/plugin.go:63-91 | Load never removes or replaces a registration, whether it succeeds or fails. |
| Plugins.LoadNewEntries | plugins/plugin.go:64-87 | Every registration Load adds is a protocol the manifest declares, sits in the registry of that connector's role, and holds that connector's factory. |
| Plugins.LoadSuccess | plugins/plugin.go:63-91 | A Load that returns nil has registered every protocol of every connector, in its role's registry, and none of them was registered before. |
| Plugins.LoadErrorCause | plugins/plugin.go:67-86 | A failing Load returns one of three errors: a connector's flags error, "unknown connector type" for a connector with at least one protocol, or a registry's refusal of a declared protocol. |
| Plugins.LoadAppend | plugins/plugin.go:64 | Connectors are taken in manifest order: loading `a + b` loads `a`, then loads `b` only if `a` returned nil. |
| Plugins.UnknownTypeFailsOnlyWithProtocols | plugins/plugin.go:72-83 | A connector of an unknown type fails only if it declares a protocol; one with no protocols is passed over. |
| Plugins.NoRollbackExample | plugins/plugin.go:84-86 | When a manifest's second protocol is already served, Load fails with the registry's refusal and the first protocol stays registered. |
| Plugins.LoadedFactoryConnects | plugins/plugin.go:19-25 | An installed factory connects to the connector's executable with its arguments. On a connection failure it yields no capability and the error wrapped as "failed to connect to plugin". |
| Plugins.RoleOfName | plugins/plugin.go:73-79 | The three type strings dispatch to the three roles and to nothing else. |
| Plugins.UnloadPair | plugins/plugin.go:97-107 | One pair: it unregisters from the registry of the pair's type, or fails with "unknown connector type" and changes nothing. |
| Plugins.Unload | plugins/plugin.go:93-111 | After `Unload` the registries and its error are exactly `UnloadSpec` over the manifest's pairs. |
| Plugins.UnloadAppend | plugins/plugin.go:95-96 | Unloading `a + b` unloads `a` and then `b`, carrying the error along. |
| Plugins.UnloadLastError | plugins/plugin.go:94-110 | Unload returns the error of the last pair it visited; earlier failures are overwritten. With no pair it returns nil. |
| Plugins.UnloadRemoves | plugins/plugin.go:93-111 | Every pair is attempted. Afterwards each registry serves exactly what it served before, minus the manifest's protocols of its type, with unchanged factories. |
| Plugins.UnloadLastWinsExample | plugins/plugin.go:94-110 | A missing first protocol followed by a present one unloads with nil. |
| Manifests.PairsAppend | plugins/plugin.go:64-72 | The (type, protocol) pairs of `a + b` are those of `a` followed by those of `b`. |
| Manifests.InPairs | plugins/plugin.go:95-96 | A pair is visited exactly when some connector declares it. |
| PkgHooks.CollidesWithBackends | pkg.go:56-72 | A pair collides exactly when its type is "exporter", "importer" or "store" and its protocol is among the `Backends()` of the matching registry. |
| PkgHooks.FirstCollisionSpec | pkg.go:54-76 | The search fails exactly when some pair collides, and then names the first colliding pair's protocol. |
| PkgHooks.PreloadHookSpec | pkg.go:53-77 | The hook accepts a manifest exactly when no connector typed "exporter", "importer" or "store" declares a protocol the matching registry serves. Otherwise it names the first such protocol in manifest order. |
| PkgHooks.StorageTypedNeverChecked | pkg.go:56-72 | A connector typed "storage" is never checked: removing it from the manifest does not change the hook's answer. |
| PkgHooks.StoreStorageMismatchExample | pkg.go:67-68 | A storage plugin whose protocol is already served passes the guard. The same declaration typed "store" is refused by the guard, but Load would call it an unknown connector type. |
| PkgHooks.LoadHook | pkg.go:79-84 | The hook runs Load. It writes exactly one line to standard error, naming the package and the error, when Load fails, and nothing otherwise. |
| PkgHooks.UnloadHook | pkg.go:86-91 | The hook runs Unload and reports the error Unload returns in the same way. |
| PkgHooks.PluginDirsUnder | pkg.go:20-21 | The plugin directory is `<dataDir>/plugins/<version>` and the cache directory is `<cacheDir>/plugins/<version>`. |
| PkgCreate.PkgCreate.Parse | subcommands/pkg/create.go:51-99 | The new state and error are exactly `ParseSpec` applied to the state before the call. |
| PkgCreate.ParseArity | subcommands/pkg/create.go:58-63 | Parse fails with "wrong usage" exactly when there is not exactly one argument. The `-out` value is stored first in every case. |
| PkgCreate.ParseResolves | subcommands/pkg/create.go:65-82 | The manifest path is the argument made absolute. The base is its directory, even when opening or parsing fails. Parse succeeds exactly when the manifest is read and parsed. |
| PkgCreate.RelativeManifestLocation | subcommands/pkg/create.go:66-71 | A manifest given relative to a canonical working directory lands below it, and the base is the directory holding the manifest. |
| PkgCreate.AbsoluteManifestLocation | subcommands/pkg/create.go:68-70 | An absolute canonical manifest path is kept as it is. |
| PkgCreate.PtarNameComponent | subcommands/pkg/create.go:94 | A name, version and platform without '/' make the ptar name a single path component. |
| PkgCreate.DefaultOutInCwd | subcommands/pkg/create.go:84-96 | Without `-out` the output is `<name>_<version>_<os>_<arch>.ptar` directly inside the working directory, the platform taken from GOOS/GOARCH when they are set. |
| PkgCreate.SetupPlan | subcommands/pkg/create.go:102-149 | Setup uses an unencrypted configuration with the largest packfile size and a ptar storage at the output path. |
| PkgCreate.BackupPlan | subcommands/pkg/create.go:151-174 | The backup is single-threaded over the manifest's directory, with no checkpoint and no commit of its own. It runs inside the events processor's lifetime and is followed by the commit and the close. |
| PkgCreate.PkgCreate.Prepare | subcommands/pkg/create.go:102-149 | The setup steps are made in order until the first failure; the steps made and the error are exactly those of `Run` over the setup plan. |
| PkgCreate.PkgCreate.Populate | subcommands/pkg/create.go:151-174 | The backup, the events processor's close, the wait, the commit and the close are made in order until the first failure, with the result of `Run` over the backup plan. |
| PkgCreate.PkgCreate.Execute | subcommands/pkg/create.go:101-182 | The status, error and engine calls are exactly `ExecuteSpec`. |
| PkgCreate.RunAt | subcommands/pkg/create.go:107-174 | A run is determined by its first failing step: the steps up to and including it, its cleanup, and its error. |
| PkgCreate.RunConcat | subcommands/pkg/create.go:146-161 | The second half of the plan starts only when every step of the first half succeeded. |
| PkgCreate.ExecuteStatus | subcommands/pkg/create.go:161-181 | The status is 0 exactly when every step succeeds and the backup read every file. When every step succeeds, all of them were made, even if files were missed. |
| PkgCreate.ExecuteEarlyFailure | subcommands/pkg/create.go:157-163 | A step failing at or before the backup ends Execute with status 1 and that step's error, before the wait, the commit or the close. A failed backup is still followed by closing the events processor. |
| PkgImporter.ScanChannel.Send | subcommands/pkg/pkgimporter.go:59 | Sending appends one result to an open channel. |
| PkgImporter.ScanChannel.Close | subcommands/pkg/pkgimporter.go:115 | Closing marks the channel closed and keeps what was sent. |
| PkgImporter.AbsolutifyCanonical | subcommands/pkg/pkgimporter.go:45-50 | Against a rooted working directory, every path becomes a canonical rooted one. |
| PkgImporter.AbsolutifyRelative | subcommands/pkg/pkgimporter.go:49 | A relative path of canonical components lands below the directory. |
| PkgImporter.LogicalNameBelow | subcommands/pkg/pkgimporter.go:67-71 | A file `rs` below the directory `cs` is recorded as `/rs`. |
| PkgImporter.LogicalNameCanonical | subcommands/pkg/pkgimporter.go:71 | The recorded name is always a canonical rooted path. |
| PkgImporter.DirsUpAncestors | subcommands/pkg/pkgimporter.go:53-61 | Walking up by `Dir` and `Base` visits exactly the ancestors the components name, each named by its last component. |
| PkgImporter.MkStructRecords | subcommands/pkg/pkgimporter.go:52-62 | For a file `/c1/.../cn`, mkstruct sends one record per ancestor below "/", from the parent up to `/c1`, the one for `/c1/.../ck` named `ck`. |
| PkgImporter.MkStruct | subcommands/pkg/pkgimporter.go:52-62 | The loop sends exactly those records, in that order. |
| PkgImporter.ExecuteBits | subcommands/pkg/pkgimporter.go:90-101 | A file that must be executable, is below the manifest and opens is refused as "not executable" exactly when, on a windows target, its name does not end in ".exe", and elsewhere none of the owner, group and other execute bits (`0111`) is set. |
| PkgImporter.DoFile | subcommands/pkg/pkgimporter.go:64-112 | The channel receives exactly `DoFileSpec` for the file. |
| PkgImporter.FileResultsOutcome | subcommands/pkg/pkgimporter.go:73-111 | dofile sends only the file's error when the file is not below the manifest (checked first), cannot be opened or stat-ed, or must be executable and is not. Otherwise it sends the ancestors, then the file's own record with its reader. Either way it settles that one file. |
| PkgImporter.DoFileSettles | subcommands/pkg/pkgimporter.go:64-112 | Each dofile settles exactly its own file, under its recorded name. |
| PkgImporter.DoFileBelow | subcommands/pkg/pkgimporter.go:65-111 | A present file `r1/.../rn` below the manifest's directory, executable where it must be, is recorded as `/r1/.../rn` after its ancestors. |
| PkgImporter.DoFileAccepted | subcommands/pkg/pkgimporter.go:104-111 | A file that passes every check produces its ancestors and then its record, under a canonical name. |
| PkgImporter.NoDedup | subcommands/pkg/pkgimporter.go:104 | mkstruct keeps no memory between files: `d/a` and `d/b` each bring their own record for `/d`. |
| PkgImporter.PrefixNotContainment | subcommands/pkg/pkgimporter.go:73 | The containment test compares characters: a sibling `/c1/.../cn<x>/...` passes it and is recorded as `/x/...`. |
| PkgImporter.PrefixNotContainmentPackaged | subcommands/pkg/pkgimporter.go:67-111 | Such a file is therefore packaged, under a directory `/x` outside the package's layout. |
| PkgImporter.DoFiles | subcommands/pkg/pkgimporter.go:128-130 | The inner loop sends what dofile sends for each extra file, in order. |
| PkgImporter.DoConnector | subcommands/pkg/pkgimporter.go:127-130 | One connector sends its executable's results (the executable must be executable), then its extra files' results. |
| PkgImporter.DoConnectors | subcommands/pkg/pkgimporter.go:126-131 | The outer loop sends every connector's results, in declared order. |
| PkgImporter.ScanInto | subcommands/pkg/pkgimporter.go:114-132 | scan sends the root record, the manifest (not required to be executable) and the connectors' files, then closes the channel. |
| PkgImporter.Scan | subcommands/pkg/pkgimporter.go:134-138 | Scan returns a fresh closed channel holding exactly `ScanSpec`. |
| PkgImporter.FileOutsOutcomes | subcommands/pkg/pkgimporter.go:128-130 | dofile over a list of files settles them one by one, in order. |
| PkgImporter.ScanOrder | subcommands/pkg/pkgimporter.go:114-132 | scan settles every file exactly once, in the order it hands them to dofile; every other result is a directory record. |
| PkgFetch.GetRecipe | subcommands/pkg/fetch.go:24-53 | The result is exactly `GetRecipeSpec`. |
| PkgFetch.RemoteNeverOpened | subcommands/pkg/fetch.go:30-43 | URLs and bare names are never opened, so no reader is obtained for them. |
| PkgFetch.LocalOpened | subcommands/pkg/fetch.go:44-52 | Any other name is opened as given. The recipe is read exactly when the file opens and parses, and an open failure names the recipe. |
| PkgFetch.BaseNameLocation | subcommands/pkg/fetch.go:31-39 | A bare name becomes that name with ".yaml" appended, unless it starts with ".yaml". |
| PkgFetch.UrlHasSep | subcommands/pkg/fetch.go:16-21 | No URL is a bare name. |
| PkgFetch.YamlSuffixDoubled | subcommands/pkg/fetch.go:35-37 | Because the test is on the prefix, a name already ending in ".yaml" gets a second ".yaml". |
| PkgBuild.PkgBuild.Parse | subcommands/pkg/build.go:43-69 | The new recipe and the error are exactly `ParseSpec`. |
| PkgBuild.ParseChecks | subcommands/pkg/build.go:52-68 | Parse succeeds exactly when there is one argument, the recipe is read, the name matches `[_a-zA-Z0-9]+` and the version is valid. The name is checked before the version. The recipe is replaced whenever reading succeeds. |
| PkgBuild.ValidNameComponent | subcommands/pkg/build.go:35 | A valid plugin name is a single path component. |
| PkgBuild.TempPatternNoSep | subcommands/pkg/build.go:74 | With a valid name and a version without '/', the temporary directory's pattern holds no separator. |
| PkgBuild.MakeExt | subcommands/pkg/build.go:85-89 | make gets `-C <dir>`, plus `EXT=.exe` exactly when GOOS or the running platform is windows. That includes a windows host building for another GOOS. |
| PkgBuild.PkgBuild.Execute | subcommands/pkg/build.go:71-107 | The status, error and commands are exactly `ExecuteSpec`. |
| PkgBuild.BuildCleansUp | subcommands/pkg/build.go:75-79 | The temporary directory is asked for first; if that fails nothing else happens. Once it exists the clone comes next, and its removal is the last command and happens only there. |
| PkgBuild.BuildStatus | subcommands/pkg/build.go:71-106 | The status is 0 exactly when the directory is made, the clone and make succeed, the create step parses its manifest, and its Execute returns 0. The error is absent exactly then. |
| PkgBuild.BuildOrder | subcommands/pkg/build.go:81-93 | make runs exactly when the clone succeeded. |
| PkgBuild.CreateInputLocation | subcommands/pkg/build.go:97-105 | The create step reads `<dir>/manifest.yaml` and imports from the directory itself. It writes the package under the name given to it and succeeds exactly when the manifest parses. |
| PkgList.PkgList.Parse | subcommands/pkg/list.go:35-52 | The flags are stored, and Parse fails exactly when there are positional arguments. |
| PkgList.PkgList.Execute | subcommands/pkg/list.go:54-82 | The status, error and printed lines are exactly `ExecuteSpec`. |
| PkgList.WalkStops | subcommands/pkg/list.go:65-68 | At the first error the walk ends with status 1 and that error, having printed exactly the lines of the packages before it. |
| PkgList.WalkCompletes | subcommands/pkg/list.go:65-81 | A walk without error ends with status 0 after printing one line per package, in order. |
| PkgList.WalkStatus | subcommands/pkg/list.go:64-81 | The status is 0 exactly when the iterator yields no error. |
| PkgList.ListingContents | subcommands/pkg/list.go:64-79 | The available listing shows each plugin's latest version for the running platform. The installed listing shows each package with its own platform. |
| PkgList.LongLineIsPtar | subcommands/pkg/list.go:57 | The long form is the file name `pkg create` writes by default for that plugin and platform. |
| PkgList.ShortLine | subcommands/pkg/list.go:59 | The short form is the name and the version around an '@'. Both are recovered for a name without '@'. |
| PlakarMain.CpuCheck | main.go:214-221 | `-cpu` is accepted exactly when it is between 1 and the number of cores. Non-positive values are "invalid". |
| PlakarMain.CpuDefaultRange | main.go:84-87 | The default is at least one core, and leaves one core free whenever there is more than one. |
| PlakarMain.CpuDefaultAccepted | main.go:84-87 | The default passes the check exactly when GOMAXPROCS exceeds the number of cores by at most one. |
| PlakarMain.AtSelection | main.go:284-293 | With `at`, selection succeeds exactly when a repository and a command follow. The repository is the word after `at` and the command is the rest. |
| PlakarMain.DefaultSelection | main.go:294-306 | Without `at`, every argument is passed on. PLAKAR_REPOSITORY wins over the configured default, which wins over `~/.plakar`. |
| PlakarMain.HomeRepository | main.go:301 | The fallback is `fs:` followed by the `.plakar` directory right inside the home directory. |
| PlakarMain.StoreConfig.GetPassphraseFromEnv | main.go:508-528 | The passphrase, error and remaining parameters are exactly `PassphraseSpec` applied to the parameters before the call. |
| PlakarMain.PassphrasePriority | main.go:508-528 | The sources are tried in order and the first one present is used. Only the parameter it came from is removed, and only a failing command is an error. |
| PlakarMain.Render | main.go:575-583 | One line per group, in order, each the group's `flush` line. |
| PlakarMain.ListCmds | main.go:571-614 | The lines printed are exactly the rendered groups of the fold over the entries. |
| PlakarMain.GroupHeadsAreRuns | main.go:585-612 | One line is printed per run of consecutive listed entries with the same command, in order, skipping empty and `diag` entries. With nothing listed it prints one line. |
| PlakarMain.RunHeadsDistinct | main.go:595-602 | Consecutive lines name different commands. |
| PlakarMain.GroupSubsNoRepeat | main.go:596-598 | A subcommand repeating the previous one is not added again. |
| PlakarMain.BracketedGroup | main.go:577-580 | A bare command followed by two of its subcommands is printed with the subcommands in brackets. |
| PlakarMain.PlainGroup | main.go:576-582 | Subcommands without a bare entry are listed after a space, and a repeated subcommand appears once. |
| PlakarMain.EmptyListing | main.go:613 | With nothing to list, the single line is the prefix and a space. |
| GoStrings.EscapeRoundTrip | subcommands/pkg/build.go:58 | Unescaping the escaped text gives it back, and every '"' in it is escaped. |
| GoStrings.QuoteRoundTrip | api/api_integrations.go:68 | A quoted string is delimited by '"', and its inside unescapes to the original. |
| Api.HandleErrorClasses | api/api.go:50-84 | NotReadable gives 400 "bad-request", whatever else the error wraps. The four not-found sentinels give 404 "not-found". Both keep the message. An `*ApiError` is written as is. Anything else is 500 with a message that reveals nothing. |
| Api.HandleErrorStatus | api/api.go:50-84 | The status is 400, 404, 500 or the API error's own. |
| Api.TokenAuthDecision | api/api.go:104-124 | Without a token every request is forwarded. With one, exactly the requests carrying `Bearer <token>` are forwarded; a missing header and a wrong value are refused with their own reasons. |
| Api.CatchAllNotFound | api/api.go:167-174 | Unmatched `/api/` requests get 404 "not-found" with "API endpoint not found". |
| Integrations.IntegrationsResponse.AddMessage | api/api_integrations.go:34-39 | Appends one message and changes nothing else. |
| Integrations.IntegrationsInstall | api/api_integrations.go:46-72 | The response has type "pkg_install" and the status and messages of `InstallSpec`. The handler returns the encoder's error. |
| Integrations.IntegrationsUninstall | api/api_integrations.go:74-91 | The response has type "pkg_uninstall" and the status and messages of `UninstallSpec`. |
| Integrations.InstallOutcome | api/api_integrations.go:49-68 | The status is "ok" exactly when decoding and `Add` succeed, and "failed" otherwise. There is always exactly one message, naming the plugin quoted so that it reads back. |
| Integrations.UninstallOutcome | api/api_integrations.go:75-87 | The status is "ok" exactly when `Del` succeeds. There is always exactly one message, holding `Del`'s error on failure. |
| Paths.CleanAbs | subcommands/pkg/create.go:69 | `Clean` turns every rooted path into a canonical one. |
| Paths.CleanCanonical | subcommands/pkg/pkgimporter.go:47 | `Clean` leaves a canonical rooted path alone. |
| Paths.JoinAbsRelative | subcommands/pkg/create.go:67 | Joining a canonical rooted path with canonical relative components appends the components. |
| Paths.DirBase | subcommands/pkg/pkgimporter.go:53-60 | On a canonical rooted path, `Dir` drops the last component and `Base` returns it. |
| Paths.JoinSplit | subcommands/pkg/pkgimporter.go:70-71 | Splitting at '/' and joining again gives the string back. |

## Left out

- Flag parsing is left out. Each command takes its flag values and positional arguments already separated, and usage text is not modelled.
- The goroutine and the buffered channel of the importer's `Scan` are left out. The producer runs to completion into a channel object.
- The file system, git, make, the snapshot engine, the storage, the package manager's `Add`/`Del`/`Query`/`List`, `connectPlugin` and the gRPC wrappers are external. They are parameters that give each call's outcome. The registries' `Register`, `Unregister` and `Backends()` belong to the storage/importer/exporter library; they are modelled as operations on one map per registry, `Backends()` being that map's key set (`Plugins.Registries.Backends`), which the preload hook reads through `Tables.Get`.
- PkgFetch.GetRecipeSpec: for every URL and every bare name the source crashes: the call that opens a URL is commented out in `fetch.go`, so `rd` stays a nil reader with no error, and `defer rd.Close()` at fetch.go:51 panics on that nil interface (`plakar pkg build recipe.yaml`, a bare name, is one such input). The model returns `Err(NoReader(location))` with a message of its own instead, and `pkg build` then fails its Parse with status 1 where the program would panic.
- Path handling assumes a Unix host: `filepath.IsAbs`, `Join`, `Clean`, `os.PathSeparator` and `filepath.ToSlash` follow Unix rules. The `windows` flag of the importer's `.exe` test and of `EXT=.exe` is faithful only for a GOOS=windows target built on a Unix host; on a Windows host those path functions behave differently and are not modelled.
- `url.URL.String()` escaping of a bare recipe name is left out: the location is the joined path with ".yaml".
- Timestamps are left out: `StartedAt`, `FinishedAt` and message dates. So are writing to standard output and standard error beyond the hooks' lines, and JSON encoding.
- `authError` is left out because it is not part of these files. It is a parameter of `Api.TokenAuth`.
- Semantic-version validity (`semver.IsValid`) is a predicate parameter of `pkg build`.
- `PlakarMain.ListCmds` requires that no entry continues a group without a subcommand. Such an entry makes the source index past the end of the entry and panic.
- The pkg.go hooks pass `flag.CommandLine.Name` to `%s` without calling it. The text printed in that position is a parameter of `PkgHooks.LoadHook` and `PkgHooks.UnloadHook`.
- GoStrings.Quote: `%q` is modelled only as escaping '"' and '\\'. Go's escaping of non-printable characters is not modelled.
- `runtime.GOMAXPROCS`, `runtime.NumCPU`, the environment and the home directory are parameters.
- The random snapshot identifier (`objects.RandomMAC`) and the hasher are left out, as are the file contents and the records' stat details beyond name and mode.
- `Recipe.PkgName()` belongs to the package library; its value is the `pkgName` parameter of `pkg build`'s Execute.
- The rest of `entryPoint` in main.go is left out: logging, `setupEncryption`, update checks, `GetPassphraseFromCommand` (a parameter), route wiring, the API proxy, `pkg add` and `pkg rm`.
- Manifest and recipe parsing belong to the package library. Their results are parameters.
