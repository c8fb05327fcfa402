# Hazel release cache and routes, in Dafny

Hazel is an update server for Electron apps. It caches the latest qualifying
GitHub release of one repository and serves downloads and update checks
from that cache. This project models two parts of it and proves properties
about them:

- the release cache (`lib/cache.js`);
- the request handlers that read the cache (`lib/routes.js`).

The cache is modelled in these modules:

- **Strings** (`strings.dfy`): option and result values, JavaScript
  truthiness of optional strings, and ASCII case-insensitive matching for
  the `i` flag.
  - `String.prototype.replace` with a string pattern: only the first
    occurrence is replaced.
  - The UTF-8 byte length that `Buffer.byteLength` reports.
- **Configuration** (`configuration.dfy`): the configuration record.
  - The two checks of the cache constructor.
  - Proxy mode, which is on when the token is a non-empty string.
  - How `${url}` renders.
  - The refresh interval in milliseconds.
- **Manifests** (`manifests.dfy`): the two manifest rewrites.
  - The Squirrel `RELEASES` index. The first match of `[^ ]*\.nupkg` is
    specified by leftmost-longest semantics and found by a search.
  - The electron-updater `latest*.yml` manifest. Parsing is modelled as a
    codec on a document datatype. The `files[i].url` index loop runs in
    place on an array.
  - The name pattern of the yml manifests, and the installer test applied
    to their content.
- **Assets** (`assets.dfy`): how one refresh classifies and stores each
  asset of a release.
  - The order is `RELEASES`, then a yml name, then the platform table.
  - The loop is specified as a fold (`Build`).
  - The invariant the built catalog keeps (`WellFormed`).
- **ReleaseCache** (`cache.dfy`): the `Cache` class.
  - Its `latest` snapshot and `lastUpdate` fields.
  - The constructor, and `refreshCache` with its asset loop.
  - `isOutdated` and `loadCache`.
  - Each state-changing method is proved against a value-level
    specification function (`Refreshed`, `Loaded`, `Build`).

The routes are modelled in **Routes** (`routes.dfy`):

- Each handler is a function from the request, the snapshot that
  `loadCache` returned and the configuration to a `Response`.
- `NoAnswer` is the case where the handler throws.
- `Handle` is one request: it loads the cache where the handler does, then
  answers.

The network is replaced by its answers, passed in as parameters:

- the release list, or the failure to get one;
- the body each asset URL answered with;
- the outcome of the API request for a proxied asset: a failure, or a
  reply with or without a `Location` header;
- the current time.

Code outside the repository becomes function-valued parameters:

- the platform table `checkPlatform` and the alias table `checkAlias`.
  The code tests their answers for truthiness, so an empty answer means
  no platform, as undefined does;
- YAML `parse`/`stringify`;
- semver `valid`/`compare`.

These rules are not written out as properties, because they are exactly
what the code does:

- JavaScript's `match` with the `g` flag returns `null`, not an empty list,
  when nothing matches. The `matches.length === 0` guards in
  `lib/cache.js` (lines 71 and 118) therefore never fire.
  - Reading `.length` on `null` throws instead. The caller catches that,
    so a body without a match is an error in either case.
- The yml name pattern `latest(-mac|-linux(-arm64)*)*\.yml` has no anchors
  and starred groups. It is matched anywhere in the name, as the code
  does: `IsYmlName`.
- The installer test on a yml body accepts any `.exe`, `.deb`, `.rpm`,
  `.AppImage` or `.dmg`, in any case and anywhere in the raw text, because
  the `[^ ]*` in front of it may match nothing.
- In proxy mode, the URL of an update answer uses the platform name as the
  client sent it, not the key it resolves to.

## Model

| member | source | states |
|---|---|---|
| Configuration.ConfigError | lib/cache.js:16-28 | the constructor fails with code `missing_configuration_properties` exactly when account or repository is falsy, or a token is set without a URL |
| Configuration.ProxyMode | lib/routes.js:19-20 | definition: downloads are proxied exactly when the token is a non-empty string (JavaScript truthiness of an optional string) |
| Configuration.UrlText | lib/routes.js:192 | definition: `${url}` renders the configured URL, or the text "undefined" when there is none; `ProxyModeHasBaseUrl` shows an accepted proxy configuration never renders "undefined" |
| Configuration.ProxyModeHasBaseUrl | lib/cache.js:22-28 | a configuration the constructor accepts has, in proxy mode, a configured non-empty base URL, so proxy links never start with "undefined" |
| Configuration.IntervalMs | lib/cache.js:248-250 | the interval is the configured number of minutes times 60000 ms, and 15 minutes (900000 ms) by default |
| ReleaseCache.Cache.constructor | lib/cache.js:12-37 | a valid configuration gives an empty snapshot and no `lastUpdate` |
| ReleaseCache.NewCache | lib/cache.js:12-31 | construction fails with `missing_configuration_properties` exactly when the checks fail; otherwise the cache is fresh, valid and empty |
| Strings.LowerAscii | lib/cache.js:69 | case folding maps exactly the ASCII capitals to the lower-case letters |
| Strings.FindFirst | lib/cache.js:77-80 | finds the leftmost occurrence of a pattern at or after a position, or reports that there is none |
| Strings.ReplaceFirst | lib/cache.js:77-80 | `replace` with a string pattern substitutes only the first occurrence and leaves a string without one unchanged |
| Strings.ReplaceWhole | lib/cache.js:131-132 | replacing a url inside itself yields the replacement |
| Strings.ReplacePrefix | lib/routes.js:28-31 | an occurrence at the start is the first one, so the replacement goes in front of the rest |
| Strings.Utf8Length | lib/routes.js:217 | the UTF-8 byte length is between 1 and 4 bytes per character, and equals the length for ASCII text |
| Manifests.FindNupkg | lib/cache.js:69 | finds the first `.nupkg`, in any letter case, at or after a position |
| Manifests.NupkgFitsRun | lib/cache.js:69 | the first `.nupkg` lies inside one run of non-space characters |
| Manifests.FirstNupkgMatch | lib/cache.js:69 | there is no result exactly when the body has no match of `[^ ]*\.nupkg`; otherwise the result is the leftmost match, made longest from its start |
| Manifests.FirstNupkgMatchUnique | lib/cache.js:69 | the leftmost-longest match is unique |
| Manifests.FirstMatchTextFirstOccurs | lib/cache.js:77-80 | the text of the first match first occurs at the match, so replacing the text replaces the match |
| Manifests.RewriteReleases | lib/cache.js:69-83 | a body without a match is an error; otherwise only the first match is replaced by `{url}/download/latest/{match}` |
| Manifests.RewriteReleasesKeepsRest | lib/cache.js:77-80 | the text before and after the match, including any later `.nupkg`, is kept, and the body grows by the base URL plus `/download/latest/` |
| Manifests.WithDownloadUrls | lib/cache.js:127-133 | every manifest entry keeps its position and its other keys, and its url becomes `{url}/download/latest/{old url}`; the count is unchanged |
| Manifests.UrlRewriteRoundTrip | lib/cache.js:127-133 | the url rewrite can be undone: stripping the prefix gives back every original entry |
| Manifests.RewriteFileUrls | lib/cache.js:127-133 | the in-place index loop leaves the array equal to the rewritten list |
| Manifests.HasInstallerRef | lib/cache.js:116 | definition: the unanchored test `[^ ]*\.(exe|dmg|rpm|deb|AppImage)` with the `i` flag, which holds exactly when one of the five dotted extensions occurs, in any ASCII case, anywhere in the body, because `[^ ]*` may match nothing; its property is `InstallerRefsAnywhere` |
| Manifests.InstallerRefsAnywhere | lib/cache.js:116 | a `.exe`, `.deb`, `.rpm`, `.dmg` or `.AppImage` name anywhere in a body passes the installer test |
| Manifests.CachedYml | lib/cache.js:116-137 | a body without an installer reference, or one that does not parse, is an error; otherwise the result is the serialised document with its file urls rewritten |
| Manifests.CacheYmlReleases | lib/cache.js:116-137 | the method, which copies the files into an array and rewrites them in place, returns exactly the specified result |
| Manifests.YmlTail | lib/cache.js:215 | the part of the pattern after `latest` matches only where a `.yml`, in any case, follows at or after its start |
| Manifests.IsYmlName | lib/cache.js:215 | a name recognised as a manifest contains `.yml`, in any case, after at least the six letters of `latest` |
| Manifests.YmlNamesAnywhere | lib/cache.js:215 | `latest.yml`, `latest-mac.yml`, `latest-linux.yml` and `latest-linux-arm64.yml` are recognised anywhere in an asset name |
| Assets.Classify | lib/cache.js:206-228 | the name `RELEASES` is the Squirrel index; any other name matching the yml pattern is a manifest, whatever `checkPlatform` says; only the remaining names go to `checkPlatform`, and a truthy answer is their key (an empty answer skips the asset) |
| Assets.SizeTenths | lib/cache.js:235 | the size is rounded half up to tenths of a megabyte |
| Assets.EntryOf | lib/cache.js:230-236 | a platform asset is stored with its API address as `api_url` and its public `browser_download_url` as `url`, keeping name and content type, with the size in tenths of a megabyte rounded half up |
| Assets.ReleasesText | lib/cache.js:206-212 | the `RELEASES` text is missing exactly when its fetch failed or its body has no `.nupkg` match; otherwise it is the rewritten body |
| Assets.YmlText | lib/cache.js:215-221 | a manifest text is missing exactly when its fetch failed, its body names no installer, or it does not parse; otherwise it is the rewritten manifest |
| Assets.Step | lib/cache.js:204-239 | one pass of the asset loop: an asset it does not store leaves the catalog unchanged; a platform asset replaces only its own key; `files` and the manifests change only under the asset's own name, and a new manifest name is that of a manifest asset; the catalog stays well formed |
| Assets.Build | lib/cache.js:197-240 | the catalog the loop builds from empty is always well formed: every platform entry is a download under its own name in `files`, and `RELEASES` is the only text |
| Assets.PlatformKeysFromAssets | lib/cache.js:194-240 | after a rebuild, a platform key is present exactly when an asset of the release is classified under it |
| Assets.LastAssetWins | lib/cache.js:238-239 | of several assets under one key, the last one is the stored entry |
| Assets.LastManifestWins | lib/cache.js:215-219 | a manifest whose rewrite succeeded, with no later asset of its name, is the text stored under its name |
| Assets.LastReleasesWins | lib/cache.js:205-212 | the `RELEASES` text stored is the rewrite of the last `RELEASES` asset, when that rewrite succeeded |
| Assets.StoredNamesFromAssets | lib/cache.js:194-240 | the catalog is rebuilt from empty: every name in `files` is the name of an asset of the release, and every manifest name that of a manifest asset |
| Assets.BuildConcat | lib/cache.js:203-240 | the loop over a concatenation continues from the catalog of the prefix |
| Assets.FailedAssetOmitted | lib/cache.js:206-222 | a manifest whose fetch or rewrite fails is left out, and the catalog is the one built without that asset |
| ReleaseCache.Qualifies | lib/cache.js:171-177 | drafts never qualify; a stable release that is not a draft always does; a prerelease that is not a draft qualifies exactly when prereleases are wanted |
| ReleaseCache.FindQualifying | lib/cache.js:171-178 | finds the first release that is not a draft, and is not a prerelease unless prereleases are wanted |
| ReleaseCache.Candidate | lib/cache.js:167-182 | a release is acted on exactly when the list's first qualifying release has an assets array, and it is that release |
| ReleaseCache.Refreshed | lib/cache.js:140-244 | a refresh either keeps `lastUpdate` or sets it to now, and it changes the snapshot only together with the stamp, to a well-formed catalog |
| ReleaseCache.Cache.RefreshCache | lib/cache.js:140-244 | fails exactly when the list cannot be fetched; the new state is the one `Refreshed` specifies, and the catalog stays well formed |
| ReleaseCache.Cache.CacheAssets | lib/cache.js:203-240 | the asset loop leaves the catalog equal to the fold over the assets, and changes nothing else |
| ReleaseCache.Cache.IsOutdated | lib/cache.js:246-255 | staleness needs a stamped time that lies in the past |
| ReleaseCache.Cache.LoadCache | lib/cache.js:260-268 | refreshes exactly when there is no stamp or the cache is outdated, ignores a failed refresh, and returns the resulting snapshot |
| ReleaseCache.NoCandidateNoChange | lib/cache.js:167-182 | nothing changes, `lastUpdate` included, when the list is not an array, no release qualifies, or the qualifying release's assets are missing |
| ReleaseCache.CandidateIsFirstQualifying | lib/cache.js:171-178 | the release acted on is the first qualifying one in the list |
| ReleaseCache.FirstQualifyingIsActedOn | lib/cache.js:171-182 | in a list of any length, the first qualifying release is acted on whenever its assets are an array |
| ReleaseCache.SameTagOnlyStamps | lib/cache.js:186-190 | the cached tag found again: only `lastUpdate` becomes now |
| ReleaseCache.NewTagRebuilds | lib/cache.js:194-243 | a new tag: version, notes and date come from the release, the catalog is the one built from empty over its assets, so the platform keys are exactly those of its assets, and `lastUpdate` becomes now |
| ReleaseCache.RefreshTwiceKeepsSnapshot | lib/cache.js:186-190 | a second refresh against the same upstream keeps the snapshot and only restamps the time |
| ReleaseCache.OutdatedBoundary | lib/cache.js:250 | an elapsed time equal to the interval is not stale; one millisecond more is |
| ReleaseCache.OutdatedNeedsStamp | lib/cache.js:250 | never stale before the first stamp, nor at the moment of stamping |
| ReleaseCache.OutdatedMonotone | lib/cache.js:250 | once stale, stale at every later time |
| ReleaseCache.DraftSkipped | lib/cache.js:171-178 | with a draft listed first, the stable release after it is acted on |
| ReleaseCache.PrereleaseNeedsPre | lib/cache.js:171-178 | with a prerelease listed before a stable release, `PRE` set acts on the prerelease, and `PRE` unset on the stable release |
| Routes.Stream | lib/routes.js:216-221 | a text is served with status 200 and its UTF-8 byte length as content-length |
| Routes.ProxyUrl | lib/routes.js:28-31 | the first occurrence of `https://api.github.com/` gets the token in front of the host; an address without it is unchanged |
| Routes.RelayedLocation | lib/routes.js:34 | definition: the `Location` of the API's reply is copied as it is, and a missing header is written as the text "null"; `Dispatch` states where it is used |
| Routes.Dispatch | lib/routes.js:23-37 | in public mode the answer is a 302 to the entry's `url`; in proxy mode it is a 302 relaying the `Location` the API answers for the token-bearing URL (the text "null" when the header is missing), and there is no answer exactly when that request fails |
| Routes.AgentPlatform | lib/routes.js:44-54 | a Mac gets `darwin` for an update and `dmg` otherwise; else Windows gets `exe`; else Linux gets `AppImage`; no flag gives no platform |
| Routes.ResolvedPlatform | lib/routes.js:93-99 | the alias table resolves a name exactly when its answer is truthy, and then to that answer: an empty answer is an invalid platform |
| Routes.PlatformEntry | lib/routes.js:59 | the entry is found exactly when the snapshot has platforms holding the key, and it is `platforms[key]` |
| Routes.DownloadForAgent | lib/routes.js:39-74 | 404 with "No download available for your platform!" exactly when there is no platform or no cached entry for it; otherwise that platform's entry is served |
| Routes.RoutedPlatform | lib/routes.js:82-88 | only `mac` and `mac_arm64` are rewritten, and only outside updates |
| Routes.ServePlatform | lib/routes.js:94-115 | 500 exactly when the alias is unresolved, 404 exactly when it resolves to a key without a cached entry, and otherwise that key's entry is served |
| Routes.DownloadPlatform | lib/routes.js:76-116 | after the Mac rewrite and the alias table: 500 "The specified platform is not valid" exactly when the alias is unresolved, 404 for a key without a cached entry, and otherwise that key's entry is served |
| Routes.DownloadLatest | lib/routes.js:118-139 | 404 "File not found" exactly when there are no files, the name is absent, or its value is the empty text; a download entry under the name is served, and only such an entry gives a redirect |
| Routes.UpdateUrl | lib/routes.js:192 | definition: `{url}/download/{platformName}?update=true`; `UpdateUrlLeadsToEntry` shows it leads back to the entry the update found |
| Routes.Update | lib/routes.js:141-201 | 500 `version_invalid` exactly when the client's version is invalid; then 500 `invalid_platform` for an unresolved alias; 204 without a cached entry; an update answer only when the cached version differs, carrying its name, notes and date |
| Routes.Releases | lib/routes.js:203-222 | 204 exactly when there is no non-empty `RELEASES` value; a non-empty `RELEASES` text is served with 200 and its byte length |
| Routes.ElectronUpdater | lib/routes.js:224-243 | no answer exactly when there are no files yet; 404 "File not found" exactly when the manifest is absent or empty; otherwise it is served with 200 and its byte length |
| Routes.Handle | lib/routes.js:141-165 | the cache is loaded, with the state `loadCache` leaves, except for an update with an invalid version or platform, which leaves the cache untouched; the answer is the handler's on the resulting snapshot |
| Routes.MacMeansDiskImage | lib/routes.js:82-88 | outside updates, `mac` and `mac_arm64` get the same answers as `dmg` and `dmg_arm64` |
| Routes.MacOnUpdateUsesAlias | lib/routes.js:82-94 | for an update, `mac` goes through the alias table unchanged |
| Routes.ProxyUrlCarriesToken | lib/routes.js:28-31 | the token goes in front of the API host of an API address; an address without the API prefix is unchanged |
| Routes.RedirectsServeCachedDownloads | lib/routes.js:59-138 | every redirect of the three download routes goes to a download entry held in the cached `files`: its public url in public mode, the relayed upstream `Location` of its proxy URL in proxy mode |
| Routes.UpdateRejectsBeforeCache | lib/routes.js:144-165 | an invalid version or unresolved platform gives 500 whatever the snapshot, and the cache is not consulted |
| Routes.UpdateOnAnyDifference | lib/routes.js:167-200 | with an entry and valid versions, the answer is 200 exactly when the versions differ, and 204 otherwise |
| Routes.DowngradeLikeUpgrade | lib/routes.js:174-184 | under an antisymmetric comparison, a downgrade is offered exactly when the matching upgrade is |
| Routes.UpdateUrlLeadsToEntry | lib/routes.js:184-194 | the url of an update answer is the entry's url in public mode; in proxy mode it is `{url}/download/{platformName}?update=true`, whose request serves the same entry |
| Routes.ReleasesAnswer | lib/routes.js:207-221 | on a built catalog the `RELEASES` route always answers, with content-length equal to the UTF-8 byte length |
| Routes.LatestFileIsPlatformDownload | lib/routes.js:118-139 | on a built catalog, a platform's file name under `/download/latest/` serves the same download as the platform |
| Routes.DownloadLatestFailsOnlyOnTexts | lib/routes.js:124-138 | on a built catalog, when the upstream request never fails, only `RELEASES` and `electronUpdater` can make `/download/latest/` throw |
| Routes.PublicDownloadGoesToEntryUrl | lib/routes.js:59-73 | in public mode an agent whose platform has a cached entry is redirected to that entry's `url` |
| Routes.PlatformAssetServed | lib/routes.js:94-115 | after a refresh, a platform asset that no later asset displaces is what its key downloads: a redirect to its `browser_download_url` in public mode, the relayed reply for its API `url` carrying the token in proxy mode |
| Routes.ManifestServedAfterRefresh | lib/routes.js:224-243 | after a refresh, a manifest whose rewrite produced a non-empty text is served under its name with that text and its UTF-8 byte length |
| Routes.ManifestAbsentAfterRefresh | lib/routes.js:224-243 | after a refresh, a name that no manifest asset of the release carries is not found, so nothing of an earlier release is served |
| Routes.ReleasesServedAfterRefresh | lib/routes.js:203-222 | after a refresh, a non-empty rewritten `RELEASES` text of the last `RELEASES` asset is served with that text and its UTF-8 byte length |

## Left out

- Network and streams: `node-fetch`, `async-retry` with its three retries,
  the manual 302 hop and `stream-to-string` are replaced by their outcomes,
  which are passed in as parameters.
  - For the release list: a list, a non-list value, or a failure.
  - For each asset body: the text, or a failure.
- Proxy downloads: the upstream request is replaced by its outcome. It
  either fails, or it answers with or without a `Location` header.
  - A failed request gives `NoAnswer`: the promise rejects and the client
    gets no response.
  - A reply without the header gives a 302 whose `Location` is the text
    "null". `headers.get` returns `null`, and `setHeader` writes it as that
    text.
- `YAML.parse`/`YAML.stringify` come from a foreign library. They are a
  codec parameter on a document datatype. The model does not prove that
  their output is YAML.
- YAML aliases are not modelled. `YAML.parse` turns an alias into the same
  object as its anchor.
  - If two `files` entries are one shared object, the in-place loop of
    `cacheYmlReleases` prefixes that object's url once per entry.
  - `stringify` then writes the url with the prefix doubled, for both
    entries.
  - The document datatype has no sharing, so the model prefixes each entry
    exactly once.
- `checkPlatform` (`lib/platform.js`) and `checkAlias` (`lib/aliases.js`)
  are not part of this model, so their tables are function parameters.
- The user-agent parser and semver `valid`/`compare` are also parameters.
  Semver precedence is not modelled.
- Assets.SizeTenths: computes integer tenths of a megabyte, rounded half up,
  in place of the floating-point `Math.round(size / 1000000 * 10) / 10`.
- Concurrency: calls are sequential.
  - `loadCache` has no single-flight guard in the code, and the model does
    not claim one.
  - A refresh that overlaps a request is not modelled.
- JavaScript quirks. File names and URLs are assumed to contain no `$`.
  - `$` sequences in a `replace` replacement string are taken literally.
  - Inherited prototype keys of plain objects (`files['constructor']`) are
    absent from the maps.
  - An asset literally named `electronUpdater` that overwrites the
    manifest table is not modelled.
  - Repeated `update` query parameters, which arrive as an array, are not
    modelled.
- `Date.now()` is the `now` parameter, and logging is dropped.
- A release without a `body` or `published_at` is not modelled. The cached
  `notes` and `pub_date`, and so the update answer, would then be null;
  in the model they are strings.
- Strings are sequences of Unicode scalar values, so lone surrogates are
  not modelled in `Utf8Length`.
- `INTERVAL` is modelled as a whole, non-negative number of minutes. A
  negative or fractional value, which `ms` would accept, is not modelled.
- An `INTERVAL` that `ms` cannot parse is not modelled either. For such a
  value `ms` returns `undefined`, and `Date.now() - lastUpdate > undefined`
  is always false. The cache then never goes stale after its first refresh.
- The `overview` handler (`lib/routes.js:245-279`), `lib/view.js` and
  `lib/index.js` are not part of this model: they do template rendering,
  file reading and server wiring. `electronUpdater` is modelled even though
  `lib/index.js` registers no route for it.
- ReleaseCache.Cache.IsOutdated: its own contract states only the
  direction that staleness needs a past stamp. Strictness at the interval
  and monotonicity are proved separately in `OutdatedBoundary` and
  `OutdatedMonotone`.
