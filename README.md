# Remote provider URL resolution and logger level gating (GitLens)

A Dafny model of two parts of the GitLens extension.

**The remote-provider base** (`src/git/remotes/remoteProvider.ts`) is the abstract
class that every git host builds on. The model covers:

- its identity: domain, path, protocol, optional name, custom flag;
- what is derived from that identity: owner, repository name, the memoized remote
  key, the base URL, the display name, the issue autolink and the provider
  descriptor;
- the dispatch of a remote resource (branch, branches, commit, comparison,
  create-pull-request, file, repo, revision, tag) to the host's URL builder;
- the `#` → `%23` escape of `encodeUrl`;
- the batch operations `copy` and `open`. They ask for every resource's URL,
  settle all the requests and keep the URLs that came out, in input order. Then
  they write them to the clipboard, or open each one.

The per-host builders are fields of a `Host` value, and these fields are
functions. Every property is proved for all of them.

**The logger** (`src/logger.ts`) keeps its level in two forms, the name
(`_logLevel`) and the ordinal (`level`), and the model proves the two stay
consistent. Every log method applies the same gate before it writes to the
output channel or to the console. The model also covers the pure helpers that
shape a line: `fromOutputLevel`, `toOrderedLevel`, `toLoggableName`, the
correlation prefix and `toLoggableParams`.

Files: `wrappers.dfy` (Option), `strings.dfy` (the JavaScript string operations
used: `indexOf`, `substring`, `join`, `padStart`, `String(n)`; also `split`,
which the code does not call, used only to read the clipboard text back),
`remote_resources.dfy`, `remote_provider.dfy` and `logger.dfy`.

Behaviour of the code that is easy to miss:

- A builder that throws synchronously is not absorbed by the settle-all step.
  The throw happens inside the loop that starts the requests, so it escapes
  `getUrlsFromResources`, and the whole `copy` or `open` rejects. Only a builder
  promise that rejects is dropped.
- A path with no `/` gives the owner `""` and the repository name equal to the
  whole path. So in the base class `owner` and `repoName` are never undefined,
  and `providerDesc` is absent only when the host has no `gkProviderId`.
- Create-pull-request passes the base and compare branches with no title or
  description options.
- The autolink has the shape the code builds: `url`, `prefix: ''`, `title`,
  `referenceType: 'branch'`, `alphanumeric: false`, `ignoreCase: true`.
- Setting `logLevel` to the settings' `silent` gives level Off but still opens an
  output channel. Only the literal value `off` drops the channel
  (`Logging.SilentOpensChannel`).

## Model

| member | source | states |
|---|---|---|
| `Strings.IndexOf` | src/git/remotes/remoteProvider.ts:177 | `indexOf` gives -1 exactly when the character is absent; otherwise it gives a position holding the character with no earlier occurrence |
| `RemoteProviders.SplitPathAtFirstSlash` | src/git/remotes/remoteProvider.ts:176-179 | with a `/`: owner + `/` + name is the path, and the owner holds no `/`. Without one: owner `""`, name = path |
| `RemoteProviders.OwnerAndRepoName` | src/git/remotes/remoteProvider.ts:68-70 | `owner` and `repoName` are the two halves of the path split at its first `/`, or `""` and the whole path when there is no `/` |
| `RemoteProviders.RemoteProvider.constructor` | src/git/remotes/remoteProvider.ts:31-39 | the identity is kept as given; protocol defaults to `https` and custom to false; the key cache starts empty |
| `RemoteProviders.SplitPath` | src/git/remotes/remoteProvider.ts:176-179 | `splitPath`: the path cut by `substring` at the `indexOf` of its first `/`; `SplitPathAtFirstSlash` proves what the two halves are |
| `RemoteProviders.RemoteProvider.Owner` | src/git/remotes/remoteProvider.ts:68-70 | the first half of `SplitPath`; `OwnerAndRepoName` states it |
| `RemoteProviders.RemoteProvider.RepoName` | src/git/remotes/remoteProvider.ts:94-96 | the second half of `SplitPath`; `OwnerAndRepoName` states it |
| `RemoteProviders.RemoteKeyOf` | src/git/remotes/remoteProvider.ts:73-74 | the key the memoized getter computes: `domain/path` for a non-empty domain, else the path; `RemoteKeySplitsBack` and `RemoteKeyInjective` prove it identifies the remote |
| `RemoteProviders.RemoteProvider.RemoteKey` | src/git/remotes/remoteProvider.ts:72-75 | the key is `domain/path`, or `path` when the domain is empty; it is cached after the first read, and later reads return the cached value |
| `RemoteProviders.RemoteKeySplitsBack` | src/git/remotes/remoteProvider.ts:72-75 | for a non-empty domain without `/`, splitting the key at its first `/` gives back the domain and the path |
| `RemoteProviders.RemoteKeyInjective` | src/git/remotes/remoteProvider.ts:72-75 | remotes with non-empty, slash-free domains share a key only if they share domain and path |
| `RemoteProviders.RemoteProvider.Url` | src/git/remotes/remoteProvider.ts:123-159 | `url(resource)`: the builder each resource kind is sent to; the lemmas below state each case |
| `RemoteProviders.RemoteProvider.GetRepoBaseUrl` | src/git/remotes/remoteProvider.ts:165-167 | `protocol://domain/` followed by the given path |
| `RemoteProviders.RemoteProvider.BaseUrl` | src/git/remotes/remoteProvider.ts:161-163 | the repository base URL, `GetRepoBaseUrl` of the remote's own path |
| `RemoteProviders.RemoteProvider.GetUrlForRepository` | src/git/remotes/remoteProvider.ts:201-203 | the base URL, unless the host overrides it; `RepoResolvesToBaseUrl` states it |
| `RemoteProviders.RemoteProvider.FormatName` | src/git/remotes/remoteProvider.ts:169-174 | `formatName`; `DisplayName` states its three cases |
| `RemoteProviders.RemoteProvider.Name` | src/git/remotes/remoteProvider.ts:169-174 | the host's name passed through `formatName`, as each host's `name` getter does |
| `RemoteProviders.RemoteProvider.Autolinks` | src/git/remotes/remoteProvider.ts:43-54 | the one issue autolink; `AutolinkShape` states its fields |
| `RemoteProviders.RemoteProvider.GetProviderDesc` | src/git/remotes/remoteProvider.ts:81-92 | `providerDesc`; `ProviderDescPresence` states when it exists and its fields |
| `RemoteProviders.RemoteProvider.IsReadyForCrossForkPullRequestUrls` | src/git/remotes/remoteProvider.ts:189-191 | true unless the host overrides it; `CrossForkReadyByDefault` states it |
| `RemoteProviders.RepoResolvesToBaseUrl` | src/git/remotes/remoteProvider.ts:144-145 | a `Repo` resource resolves to the base URL `protocol://domain/path` unless the host overrides the repository URL |
| `RemoteProviders.RemoteProvider.AvatarUri` | src/git/remotes/remoteProvider.ts:56-58 | `avatarUri`: none; `DefaultGetters` states it |
| `RemoteProviders.RemoteProvider.DisplayPath` | src/git/remotes/remoteProvider.ts:60-62 | `displayPath`: the remote's path; `DefaultGetters` states it |
| `RemoteProviders.RemoteProvider.Icon` | src/git/remotes/remoteProvider.ts:64-66 | `icon`: `remote`; `DefaultGetters` states it |
| `RemoteProviders.RemoteProvider.GetRepoDesc` | src/git/remotes/remoteProvider.ts:77-79 | `repoDesc`: the owner and the repository name; `DefaultGetters` states what they are |
| `RemoteProviders.DefaultGetters` | src/git/remotes/remoteProvider.ts:56-79 | the base's defaults: no avatar, displayed by its path, the `remote` icon, and a repository description made of the owner and repository name, the two halves of the path |
| `RemoteProviders.DisplayName` | src/git/remotes/remoteProvider.ts:169-174 | an explicit name is used verbatim; otherwise the host's name, followed by ` (domain)` only for a custom remote |
| `RemoteProviders.AutolinkShape` | src/git/remotes/remoteProvider.ts:43-54 | exactly one autolink: the host's issue pattern, titled `Open Issue #<num> on <display name>`, type `branch`, empty prefix, not alphanumeric, case-insensitive |
| `RemoteProviders.ProviderDescPresence` | src/git/remotes/remoteProvider.ts:81-92 | the descriptor exists exactly when the host has a provider id; its `id` is that provider id, `repoDomain` the owner and `repoName` the repository name |
| `RemoteProviders.ComparisonNotation` | src/git/remotes/remoteProvider.ts:131-133 | an absent notation reaches the builder as three-dot; an explicit notation, `..` included, is passed unchanged |
| `RemoteProviders.CreatePullRequestDispatch` | src/git/remotes/remoteProvider.ts:134-136 | with no pull-request builder the URL is absent, not an error; with one, the builder gets the base and compare branches and no options |
| `RemoteProviders.FileIsRevisionWithoutSha` | src/git/remotes/remoteProvider.ts:137-152 | a file link is the revision link with no sha; a revision passes its file name, branch or tag, sha and range through |
| `RemoteProviders.TagHasNoUrl` | src/git/remotes/remoteProvider.ts:153-158 | a resource kind with no builder (Tag) resolves to no URL |
| `RemoteProviders.CrossForkReadyByDefault` | src/git/remotes/remoteProvider.ts:189-191 | a host that does not override it is ready for cross-fork pull-request URLs |
| `RemoteProviders.EscapeHash` | src/git/remotes/remoteProvider.ts:208 | the output of the `#` replacement holds no `#`, and a text without `#` is unchanged |
| `RemoteProviders.UnescapeEscapeHash` | src/git/remotes/remoteProvider.ts:208 | the replacement loses nothing: turning `%23` back into `#` recovers the input, when the input held no `%23` of its own |
| `RemoteProviders.EncodeUrl` | src/git/remotes/remoteProvider.ts:205-209 | an undefined URL stays undefined; a defined one is the platform encoding with every `#` escaped, so no `#` is left, and unescaping gives the platform encoding back when it held no `%23` of its own |
| `RemoteProviders.Collect` | src/git/remotes/remoteProvider.ts:221-223 | the URLs kept after settle-all, `getSettledValue` and the null filter; never more than there were requests |
| `RemoteProviders.RemoteProvider.Resolve` | src/git/remotes/remoteProvider.ts:214-220 | one outcome per resource, in order, each the `url` of that resource |
| `RemoteProviders.RemoteProvider.BatchUrls` | src/git/remotes/remoteProvider.ts:211-225 | the specification `GetUrlsFromResources` is proved against: rejected if a request threw, else `Collect` of the outcomes |
| `RemoteProviders.CollectAppend` | src/git/remotes/remoteProvider.ts:221-223 | the kept URLs of a concatenation are the kept URLs of each part, in order |
| `RemoteProviders.CollectIndices` | src/git/remotes/remoteProvider.ts:221-223 | the kept URLs are the fulfilled non-null results: each comes from such a result, at increasing positions, and none of those results is missed |
| `RemoteProviders.RemoteProvider.GetUrlsFromResources` | src/git/remotes/remoteProvider.ts:211-225 | a single resource is a one-element batch; the result rejects if a request threw; otherwise it is the kept URLs of all the requests, in input order |
| `RemoteProviders.SingleIsOneElementBatch` | src/git/remotes/remoteProvider.ts:214-220 | one resource and the one-element array of it give the same URLs |
| `RemoteProviders.BatchKeepsResolvedInOrder` | src/git/remotes/remoteProvider.ts:211-225 | when nothing throws, the batch of `a + b` keeps the URLs of `a` followed by those of `b`; rejected and absent results drop out without reordering the rest |
| `RemoteProviders.RemoteProvider.Copy` | src/git/remotes/remoteProvider.ts:102-107 | nothing is written when no URL came out (or the batch rejected); otherwise a single write of the URLs joined by a newline |
| `RemoteProviders.ClipboardTextSplitsBack` | src/git/remotes/remoteProvider.ts:106 | the clipboard text splits at newlines back into exactly the kept URLs, when none of them holds a newline |
| `RemoteProviders.RemoteProvider.Open` | src/git/remotes/remoteProvider.ts:115-121 | false with nothing opened when no URL came out; otherwise every URL is opened in order, even after a failed open, and the result is true iff every open settled to `true`; each attempt settles on its own, so the same URL may settle differently twice |
| `Logging.ToOrderedLevel` | src/logger.ts:303-318 | `toOrderedLevel`; `ToOrderedLevelIsPosition` states it |
| `Logging.FromOutputLevel` | src/logger.ts:288-301 | `fromOutputLevel`; `FromOutputLevelMapping` and `FromOutputLevelIdempotent` state it |
| `Logging.Logger.Enabled` | src/logger.ts:45-47 | `enabled(level)`: the current ordinal reaches the level's; `EnabledFollowsOrder` and `UnknownLevelAlwaysEnabled` state it |
| `Logging.ToOrderedLevelIsPosition` | src/logger.ts:303-318 | the ordinal of each level name is its place in Off < Error < Warn < Info < Debug; any other name is Off |
| `Logging.FromOutputLevelMapping` | src/logger.ts:288-301 | Silent becomes Off, Errors becomes Error, Verbose becomes Info, Debug stays Debug; every other value is passed through |
| `Logging.FromOutputLevelIdempotent` | src/logger.ts:288-301 | converting a converted level changes nothing |
| `Logging.Logger.constructor` | src/logger.ts:49-55 | the logger starts at level Off (both forms), not debugging, with no channel and no console output |
| `Logging.Logger.SetLogLevel` | src/logger.ts:59-69 | `_logLevel` is the converted value and `level` its ordinal; the channel is dropped only for the literal `off`, and is otherwise kept or opened empty |
| `Logging.Logger.Configure` | src/logger.ts:39-43 | the debugging flag follows development mode, then the level is set as by the setter |
| `Logging.EnabledFollowsOrder` | src/logger.ts:45-47 | at a known level, a level name is enabled exactly when it comes no later in the order than the current level |
| `Logging.UnknownLevelAlwaysEnabled` | src/logger.ts:45-47 | a name that is not a level has ordinal Off, so it is always enabled |
| `Logging.Logger.Write` | src/logger.ts:73-93 | below the severity and without a debugger nothing changes; the console gets the message when debugging; the channel gets a line only if it exists and the level reaches the severity |
| `Logging.Logger.Debug` | src/logger.ts:73-93 | gated at Debug; the line is the timestamp, the message and the params, which are shown as debug-only |
| `Logging.Logger.Log` | src/logger.ts:133-153 | gated at Info; the params are always shown |
| `Logging.Logger.LogWithDebugParams` | src/logger.ts:157-177 | gated at Info; the params are shown only at Debug or under a debugger |
| `Logging.Logger.Warn` | src/logger.ts:181-201 | gated at Warn; the params are always shown |
| `Logging.Logger.Error` | src/logger.ts:97-129 | gated at Error; an undefined message falls back to the stack frame name; the line ends with a newline and the exception's text |
| `Logging.Logger.LogGitCommand` | src/logger.ts:270-285 | gated at Debug unless debugging; past the gate the git channel is opened if needed and always gets the line, with the exception text after a blank line |
| `Logging.TakeMessage` | src/logger.ts:76-85 | the message of `debug`, `log`, `logWithDebugParams` and `warn`, and the params left; `CallFormsAgree` states the call forms |
| `Logging.TakeErrorMessage` | src/logger.ts:104-109 | the message of `error`, and the params left; `CallFormsAgree` states it |
| `Logging.CallFormsAgree` | src/logger.ts:76-85 | `log(m, ...ps)` and `log(undefined, m, ...ps)` log the same message; a context gives `prefix + " " + message`; `error` with no message takes none from the params |
| `Logging.NewCorrelationContext` | src/logger.ts:207-213 | `getNewCorrelationContext` for a given id; `CorrelationPrefixLayout` states its layout |
| `Logging.StripModuleName` | src/logger.ts:246-248 | the name after its first `_`, or the whole name; `StripModuleNameSplits` states it |
| `Logging.ToLoggableName` | src/logger.ts:234-249 | `toLoggableName`: a bare function's own name, else the constructor's name, defaulting to `""`, with the module name stripped; `ModuleNameStripped` states it |
| `Logging.LoggableParams` | src/logger.ts:259-266 | `toLoggableParams` on params already rendered as text; `LoggableParamsShown` states it |
| `Logging.CorrelationPrefixLayout` | src/logger.ts:207-213 | for ids below 100000 the prefix is `[`, the id's decimal digits right-aligned with spaces in five columns, `] ` and the given prefix; the id reads back from it and is carried as the context's id |
| `Logging.CorrelationPrefixWide` | src/logger.ts:207-213 | an id of six digits or more is not padded or cut: the prefix is `[`, its digits, `] ` and the given prefix, and the id reads back from the digits |
| `Logging.StripModuleNameSplits` | src/logger.ts:246-248 | a name without `_` is unchanged; otherwise the name is an underscore-free part, `_`, and the result |
| `Logging.ModuleNameStripped` | src/logger.ts:234-248 | for a constructor or an instance, `module_Class` with an underscore-free module part is logged as `Class` |
| `Logging.LoggableParamsShown` | src/logger.ts:259-266 | the params text is empty exactly when there are no params, the only param is empty text, or the params are debug-only and gated off; otherwise it is ` — ` and the params joined by `, ` |
| `Logging.SilentOpensChannel` | src/logger.ts:59-69 | on a fresh logger, setting `silent` gives level Off in both forms and enables no severity from `error` to `debug`, yet opens an empty channel |

## Left out

- The concrete hosts (GitHub, GitLab, Bitbucket, …) are not modelled. Their URL builders are arbitrary functions in `Host`, and so are their overrides of the repository URL and of the cross-fork check.
- A builder's outcome is fixed by its arguments: the same resource asked twice, in one batch or in two, gets the same `Outcome`. An asynchronous builder that looks up remote data may settle differently each time; the model does not capture that, and `SingleIsOneElementBatch` and `BatchKeepsResolvedInOrder` rely on it.
- Left to the host: the abstract `id` and `getLocalInfoFromRemoteUri` (it needs `Repository` and `Uri`).
- A host's overrides of the default getters `avatarUri`, `displayPath`, `icon`, `repoDesc`, `owner` and `repoName` are not modelled; the base's defaults are (`DefaultGetters`). `avatarUri` is a `Uri` in the code and is modelled only as absent.
- The host's abstract `name` getter is modelled as `FormatName` applied to the host's own name. Hosts do format their names that way, but that code is not part of this model.
- The platform `encodeUrl` of `system/encoding` is a foreign call. It is the `encode` parameter of `EncodeUrl`, and only the `#` replacement that follows it is modelled.
- Promises run one after another in the model. Settle-all becomes a fold over per-request outcomes (`Outcome`). The model keeps the order and the no-short-circuit rule, not the concurrency.
- `RemoteProviders.RemoteProvider.Copy`: a failing clipboard write is not modelled. `Clipboard.WriteText` always succeeds.
- `openUrl` is the `Browser.respond` oracle. It decides how each open settles, given the attempt's number and the URL. Opening is recorded as a list of URLs.
- `@memoize` is modelled as an explicit cache field.
- Logger output channels are the lists of lines appended to them. Creating a channel (`window.createOutputChannel`), `dispose` and `showOutputChannel` are I/O.
- Console calls are recorded with their arguments.
- The timestamp getter reads the clock. Each log method takes the timestamp as a parameter. The code reads the getter twice, once for the console call and once for the channel line, so the two stamps can differ; the model gives both the same value.
- `toLoggable` (`JSON.stringify`, `Uri`, and the custom loggable function stored by `configure`) is not modelled. Params arrive as already-rendered text, so a shifted first param is used as that text.
- The regular expression that takes a frame name from an error's stack is not modelled. `Logger.Error` receives its result as `stackFrame`.
- `String(ex)` is the `exText` parameter. The console calls of `error` and `logGitCommand` receive the exception object itself, not its text; the model records `exText` there.
- The correlation counter (`getNextCorrelationId`) and `getCorrelationContext` live in `src/system`, which is not part of this model. The id is a parameter of `NewCorrelationContext`.
- `exitDetails` is not modelled.
- `src/configuration.ts` is not part of this model. The `OutputLevel` names are taken to be `silent`, `errors`, `verbose` and `debug`.
- These files are out of scope: the webview front-ends (`src/webviews/...`), `src/views/nodes/fileHistoryNode.ts` and `src/system/debouncer.ts`. They are presentation, event plumbing and timers.
