/** The HTTP handlers: download by user agent, download by platform name,
    download of a cached file by name, the update check, the Squirrel
    `RELEASES` file and the electron-updater manifests. Each handler is a
    function from the request and the snapshot `loadCache` returned to the
    response; `Handle` is the server loop's step, which loads the cache first
    except where the update check rejects a request before it does.

    In proxy mode (a non-empty token) a download is not redirected to the
    public URL: the server asks the API address of the asset, with the
    token in it, for the asset and relays the `Location` it answers with. */
module Routes {
  import opened Strings
  import opened Configuration
  import opened Assets
  import opened ReleaseCache

  /** What the user-agent parser reports about the client. */
  datatype UserAgent = UserAgent(isMac: bool, isWindows: bool, isLinux: bool)

  /** What the API does with a proxied asset request: the request fails, or
      it answers, with or without a `Location` header. */
  datatype UpstreamReply = Rejected | Replied(location: Option<string>)

  /** The code the handlers call that is not part of this model: the alias
      table for platform names, the SemVer check and comparison, and the
      API's reply to an asset URL. */
  datatype Services = Services(
    checkAlias: string -> Option<string>,
    validVersion: string -> bool,
    compareVersions: (string, string) -> int,
    upstream: string -> UpstreamReply)

  datatype Body =
    | NoBody
    | Message(text: string)
    | ErrorJson(error: string, message: string)
    | UpdateJson(name: string, notes: string, pubDate: string, url: string)
      /** `application/octet-stream` with its `content-length` in bytes */
    | Octets(contentLength: nat, content: string)

  /** What the client gets: an answer, or none because the handler threw. */
  datatype Response = Answer(status: nat, location: Option<string>, body: Body) | NoAnswer

  datatype Request =
    | DownloadRequest(agent: UserAgent, update: Option<string>)
    | DownloadPlatformRequest(platform: string, update: Option<string>)
    | DownloadLatestRequest(file: string)
    | UpdateRequest(platformName: string, version: string)
    | ReleasesRequest
    | ElectronUpdaterRequest(file: string)

  const NoDownloadForAgent := "No download available for your platform!"
  const NoDownloadForPlatform := "No download available for your platform"
  const PlatformNotValid := "The specified platform is not valid"
  const FileNotFound := "File not found"
  const VersionInvalid := "version_invalid"
  const VersionInvalidMessage := "The specified version is not SemVer-compatible"
  const InvalidPlatform := "invalid_platform"
  const GithubApi := "https://api.github.com/"

  /** The key under which `files` also holds the electron-updater
      manifests. */
  const ElectronUpdaterKey := "electronUpdater"

  function Redirect(location: string): Response
  {
    Answer(302, Some(location), NoBody)
  }

  function Plain(status: nat, text: string): Response
  {
    Answer(status, None, Message(text))
  }

  const NoContent := Answer(204, None, NoBody)

  /** A cached text with its UTF-8 length as `content-length`. */
  function Stream(content: string): (r: Response)
    ensures r.Answer? && r.status == 200 && r.body.Octets?
    ensures r.body.content == content && r.body.contentLength == Utf8Length(content)
  {
    Answer(200, None, Octets(Utf8Length(content), content))
  }

  /** The asset's API address with the token put in front of the host, as
      `replace` does it: the first occurrence of the API prefix only. */
  function ProxyUrl(apiUrl: string, token: string): (u: string)
    ensures (forall q :: 0 <= q <= |apiUrl| ==> !OccursAt(apiUrl, GithubApi, q)) ==> u == apiUrl
    ensures forall i :: FirstOccurrence(apiUrl, GithubApi, i) ==>
              u == apiUrl[..i] + "https://" + token + "@api.github.com/" + apiUrl[i + |GithubApi|..]
  {
    ReplaceFirst(apiUrl, GithubApi, "https://" + token + "@api.github.com/")
  }

  /** `checkAlias(name)` as the handlers test it: a falsy answer, the empty
      string included, means the name is not a platform. */
  function ResolvedPlatform(svc: Services, name: string): (key: Option<string>)
    ensures key.Some? <==> Truthy(svc.checkAlias(name))
    ensures key.Some? ==> key == svc.checkAlias(name)
  {
    if Truthy(svc.checkAlias(name)) then svc.checkAlias(name) else None
  }

  /** The `Location` header the server copies from the API's reply: a
      missing header reads as `null`, which the response writes as the text
      "null". */
  function RelayedLocation(location: Option<string>): string
  {
    if location.Some? then location.value else "null"
  }

  /** How a download entry is served: through the upstream redirect in proxy
      mode, else by a redirect to its public URL. There is no answer only
      when the upstream request fails. */
  function Dispatch(e: Entry, config: Config, svc: Services): (r: Response)
    ensures r.Answer? ==> r.status == 302 && r.location.Some? && r.body == NoBody
    ensures !ProxyMode(config) ==> r == Redirect(e.url)
    ensures ProxyMode(config) ==>
              var reply := svc.upstream(ProxyUrl(e.apiUrl, config.token.value));
              && (r.NoAnswer? <==> reply.Rejected?)
              && (reply.Replied? ==> r == Redirect(RelayedLocation(reply.location)))
  {
    if ProxyMode(config) then
      match svc.upstream(ProxyUrl(e.apiUrl, config.token.value))
      case Rejected => NoAnswer
      case Replied(location) => Redirect(RelayedLocation(location))
    else Redirect(e.url)
  }

  /** The platform key a user agent asks for: a Mac gets the update archive
      when it asks for an update and the disk image otherwise, and a Mac
      flag takes precedence over the others. */
  function AgentPlatform(ua: UserAgent, isUpdate: bool): (p: Option<string>)
    ensures p.None? <==> !ua.isMac && !ua.isWindows && !ua.isLinux
    ensures ua.isMac && isUpdate ==> p == Some("darwin")
    ensures ua.isMac && !isUpdate ==> p == Some("dmg")
    ensures !ua.isMac && ua.isWindows ==> p == Some("exe")
    ensures !ua.isMac && !ua.isWindows && ua.isLinux ==> p == Some("AppImage")
  {
    if ua.isMac && isUpdate then Some("darwin")
    else if ua.isMac then Some("dmg")
    else if ua.isWindows then Some("exe")
    else if ua.isLinux then Some("AppImage")
    else None
  }

  /** `latest.platforms[key]`, when both exist. */
  function PlatformEntry(snap: Snapshot, key: string): (e: Option<Entry>)
    ensures e.Some? <==> snap.catalog.Some? && key in snap.catalog.value.platforms
    ensures e.Some? ==> e.value == snap.catalog.value.platforms[key]
  {
    if snap.catalog.Some? && key in snap.catalog.value.platforms then Some(snap.catalog.value.platforms[key])
    else None
  }

  /** `GET /download`. */
  function DownloadForAgent(ua: UserAgent, update: Option<string>, snap: Snapshot, config: Config, svc: Services): (r: Response)
    ensures r == Plain(404, NoDownloadForAgent) <==>
              AgentPlatform(ua, Truthy(update)).None? || PlatformEntry(snap, AgentPlatform(ua, Truthy(update)).value).None?
    ensures var p := AgentPlatform(ua, Truthy(update));
            p.Some? && PlatformEntry(snap, p.value).Some? ==> r == Dispatch(PlatformEntry(snap, p.value).value, config, svc)
  {
    match AgentPlatform(ua, Truthy(update))
    case None => Plain(404, NoDownloadForAgent)
    case Some(p) =>
      match PlatformEntry(snap, p)
      case None => Plain(404, NoDownloadForAgent)
      case Some(e) => Dispatch(e, config, svc)
  }

  /** The platform name after the Mac rewrite, which applies only outside
      updates: `mac` and `mac_arm64` mean the disk images. */
  function RoutedPlatform(platform: string, isUpdate: bool): (q: string)
    ensures q != platform ==> !isUpdate && (platform == "mac" || platform == "mac_arm64")
  {
    if platform == "mac" && !isUpdate then "dmg"
    else if platform == "mac_arm64" && !isUpdate then "dmg_arm64"
    else platform
  }

  /** `GET /download/:platform` once the alias table has resolved the name. */
  function ServePlatform(key: Option<string>, snap: Snapshot, config: Config, svc: Services): (r: Response)
    ensures r == Plain(500, PlatformNotValid) <==> key.None?
    ensures r == Plain(404, NoDownloadForPlatform) <==> key.Some? && PlatformEntry(snap, key.value).None?
    ensures key.Some? && PlatformEntry(snap, key.value).Some? ==> r == Dispatch(PlatformEntry(snap, key.value).value, config, svc)
  {
    match key
    case None => Plain(500, PlatformNotValid)
    case Some(k) =>
      match PlatformEntry(snap, k)
      case None => Plain(404, NoDownloadForPlatform)
      case Some(e) => Dispatch(e, config, svc)
  }

  /** `GET /download/:platform`. */
  function DownloadPlatform(platform: string, update: Option<string>, snap: Snapshot, config: Config, svc: Services): (r: Response)
    ensures r == Plain(500, PlatformNotValid) <==> ResolvedPlatform(svc, RoutedPlatform(platform, Truthy(update))).None?
    ensures var key := ResolvedPlatform(svc, RoutedPlatform(platform, Truthy(update)));
            && (key.Some? && PlatformEntry(snap, key.value).None? ==> r == Plain(404, NoDownloadForPlatform))
            && (key.Some? && PlatformEntry(snap, key.value).Some? ==> r == Dispatch(PlatformEntry(snap, key.value).value, config, svc))
  {
    ServePlatform(ResolvedPlatform(svc, RoutedPlatform(platform, Truthy(update))), snap, config, svc)
  }

  /** `GET /download/latest/:file`: a download entry of `files` is served
      like a platform download; a text value (the `RELEASES` text, or the
      manifests under `electronUpdater`) has no address to redirect to, and
      the handler throws on it unless it is the empty, falsy, text. */
  function DownloadLatest(file: string, snap: Snapshot, config: Config, svc: Services): (r: Response)
    ensures r == Plain(404, FileNotFound) <==>
              || snap.catalog.None?
              || (file !in snap.catalog.value.files && file != ElectronUpdaterKey)
              || (file in snap.catalog.value.files && snap.catalog.value.files[file] == Text(""))
    ensures r.Answer? && r.status == 302 ==> file in snap.catalog.value.files && snap.catalog.value.files[file].Download?
    ensures snap.catalog.Some? && file in snap.catalog.value.files && snap.catalog.value.files[file].Download? ==>
              r == Dispatch(snap.catalog.value.files[file].entry, config, svc)
  {
    if snap.catalog.None? then Plain(404, FileNotFound)
    else
      var files := snap.catalog.value.files;
      if file in files then
        match files[file]
        case Download(e) => Dispatch(e, config, svc)
        case Text(t) => if t == "" then Plain(404, FileNotFound) else NoAnswer
      else if file == ElectronUpdaterKey then NoAnswer
      else Plain(404, FileNotFound)
  }

  /** The address a proxy-mode update answer sends the client to: this
      server's platform download, flagged as an update. */
  function UpdateUrl(config: Config, platformName: string): string
  {
    UrlText(config) + "/download/" + platformName + "?update=true"
  }

  /** `GET /update/:platform/:version`. The version and the platform name
      are checked before the cache is consulted; any difference between the
      cached and the client's version, a lower one included, is an update.
      Comparing throws when the cached version is missing or not SemVer. */
  function Update(platformName: string, version: string, snap: Snapshot, config: Config, svc: Services): (r: Response)
    ensures !svc.validVersion(version) <==> r == Answer(500, None, ErrorJson(VersionInvalid, VersionInvalidMessage))
    ensures svc.validVersion(version) && ResolvedPlatform(svc, platformName).None? ==>
              r == Answer(500, None, ErrorJson(InvalidPlatform, PlatformNotValid))
    ensures (svc.validVersion(version) && ResolvedPlatform(svc, platformName).Some?
             && PlatformEntry(snap, ResolvedPlatform(svc, platformName).value).None?) ==> r == NoContent
    ensures r.Answer? && r.status == 200 ==>
              && snap.version.Some? && svc.compareVersions(snap.version.value, version) != 0
              && r.body.UpdateJson? && r.body.name == snap.version.value
              && r.body.notes == snap.notes && r.body.pubDate == snap.pubDate
  {
    if !svc.validVersion(version) then Answer(500, None, ErrorJson(VersionInvalid, VersionInvalidMessage))
    else match ResolvedPlatform(svc, platformName)
      case None => Answer(500, None, ErrorJson(InvalidPlatform, PlatformNotValid))
      case Some(key) =>
        match PlatformEntry(snap, key)
        case None => NoContent
        case Some(e) =>
          if snap.version.None? || !svc.validVersion(snap.version.value) then NoAnswer
          else if svc.compareVersions(snap.version.value, version) != 0 then
            Answer(200, None, UpdateJson(snap.version.value, snap.notes, snap.pubDate,
                                         if ProxyMode(config) then UpdateUrl(config, platformName) else e.url))
          else NoContent
  }

  /** `GET /update/:platform/:version/RELEASES`: the cached, rewritten
      `RELEASES` text, or nothing when there is none. */
  function Releases(snap: Snapshot): (r: Response)
    ensures r == NoContent <==>
              snap.catalog.None? || "RELEASES" !in snap.catalog.value.files
              || snap.catalog.value.files["RELEASES"] == Text("")
    ensures r.Answer? && r.status == 200 ==> r.body.Octets? && Text(r.body.content) == snap.catalog.value.files["RELEASES"]
    ensures snap.catalog.Some? && "RELEASES" in snap.catalog.value.files
            && snap.catalog.value.files["RELEASES"].Text? && snap.catalog.value.files["RELEASES"].text != "" ==>
              r == Stream(snap.catalog.value.files["RELEASES"].text)
  {
    if snap.catalog.None? || "RELEASES" !in snap.catalog.value.files then NoContent
    else match snap.catalog.value.files["RELEASES"]
      case Text(t) => if t == "" then NoContent else Stream(t)
      case Download(_) => NoAnswer
  }

  /** `GET /:file` for a `latest*.yml` manifest: the cached, rewritten
      text. Before the first new tag there is no `files`, and the handler
      throws. */
  function ElectronUpdater(file: string, snap: Snapshot): (r: Response)
    ensures r.NoAnswer? <==> snap.catalog.None?
    ensures r.Answer? && r.status == 200 ==>
              && file in snap.catalog.value.electronUpdater && snap.catalog.value.electronUpdater[file] != ""
              && r.body.Octets? && r.body.content == snap.catalog.value.electronUpdater[file]
    ensures r.Answer? && r.status != 200 ==> r == Plain(404, FileNotFound)
    ensures r == Plain(404, FileNotFound) <==>
              && snap.catalog.Some?
              && (file !in snap.catalog.value.electronUpdater || snap.catalog.value.electronUpdater[file] == "")
    ensures snap.catalog.Some? && file in snap.catalog.value.electronUpdater && snap.catalog.value.electronUpdater[file] != "" ==>
              r == Stream(snap.catalog.value.electronUpdater[file])
  {
    if snap.catalog.None? then NoAnswer
    else
      var manifests := snap.catalog.value.electronUpdater;
      if file in manifests && manifests[file] != "" then Stream(manifests[file])
      else Plain(404, FileNotFound)
  }

  /** The handler a request is routed to, applied to the snapshot. */
  function Route(req: Request, snap: Snapshot, config: Config, svc: Services): Response
  {
    match req
    case DownloadRequest(ua, update) => DownloadForAgent(ua, update, snap, config, svc)
    case DownloadPlatformRequest(platform, update) => DownloadPlatform(platform, update, snap, config, svc)
    case DownloadLatestRequest(file) => DownloadLatest(file, snap, config, svc)
    case UpdateRequest(platformName, version) => Update(platformName, version, snap, config, svc)
    case ReleasesRequest => Releases(snap)
    case ElectronUpdaterRequest(file) => ElectronUpdater(file, snap)
  }

  /** Every handler loads the cache, except the update check when it
      rejects the version or the platform name. */
  predicate ConsultsCache(req: Request, svc: Services)
  {
    !(req.UpdateRequest? && (!svc.validVersion(req.version) || ResolvedPlatform(svc, req.platformName).None?))
  }

  /** One request: load the cache when the handler does, then answer from
      the snapshot. */
  method Handle(cache: Cache, req: Request, feed: Feed, bodies: map<string, Option<string>>, now: Timestamp, svc: Services)
    returns (r: Response)
    requires cache.Valid()
    modifies cache
    ensures cache.Valid()
    ensures ConsultsCache(req, svc) ==> (cache.latest, cache.lastUpdate) == old(cache.Loaded(feed, bodies, now))
    ensures !ConsultsCache(req, svc) ==> unchanged(cache)
    ensures r == Route(req, cache.latest, cache.config, svc)
  {
    if !ConsultsCache(req, svc) {
      return Route(req, cache.latest, cache.config, svc);
    }
    var snapshot := cache.LoadCache(feed, bodies, now);
    r := Route(req, snapshot, cache.config, svc);
  }

  // ---------------------------------------------------------------------
  // Properties of the handlers

  /** Outside updates, `mac` and `mac_arm64` are the disk images. */
  lemma MacMeansDiskImage(update: Option<string>, snap: Snapshot, config: Config, svc: Services)
    requires !Truthy(update)
    ensures DownloadPlatform("mac", update, snap, config, svc) == DownloadPlatform("dmg", update, snap, config, svc)
    ensures DownloadPlatform("mac_arm64", update, snap, config, svc) == DownloadPlatform("dmg_arm64", update, snap, config, svc)
  {
  }

  /** For an update, `mac` goes through the alias table like any name. */
  lemma MacOnUpdateUsesAlias(update: Option<string>, snap: Snapshot, config: Config, svc: Services)
    requires Truthy(update)
    ensures DownloadPlatform("mac", update, snap, config, svc) == ServePlatform(ResolvedPlatform(svc, "mac"), snap, config, svc)
  {
  }

  /** The proxy URL puts the token in front of the API host of an API
      address, and leaves an address without the API prefix unchanged. */
  lemma ProxyUrlCarriesToken(apiUrl: string, token: string)
    ensures |GithubApi| <= |apiUrl| && apiUrl[..|GithubApi|] == GithubApi ==>
              ProxyUrl(apiUrl, token) == "https://" + token + "@api.github.com/" + apiUrl[|GithubApi|..]
    ensures (forall q :: 0 <= q <= |apiUrl| ==> !OccursAt(apiUrl, GithubApi, q)) ==> ProxyUrl(apiUrl, token) == apiUrl
  {
    if |GithubApi| <= |apiUrl| && apiUrl[..|GithubApi|] == GithubApi {
      ReplacePrefix(apiUrl, GithubApi, "https://" + token + "@api.github.com/");
    }
  }

  /** Where a served download goes: to the public URL of the entry in
      public mode, to the relayed upstream location of its proxy URL in
      proxy mode. */
  predicate ServesEntry(r: Response, e: Entry, config: Config, svc: Services)
  {
    && r.Answer?
    && if ProxyMode(config) then
         var reply := svc.upstream(ProxyUrl(e.apiUrl, config.token.value));
         reply.Replied? && r.location == Some(RelayedLocation(reply.location))
       else r.location == Some(e.url)
  }

  /** Every redirect of the three download routes goes to a download entry
      that the cached catalog holds under its own name in `files`: nothing
      is redirected to an address that is not in the cache. */
  lemma RedirectsServeCachedDownloads(req: Request, snap: Snapshot, config: Config, tools: Tools, svc: Services)
    requires snap.catalog.Some? ==> WellFormed(snap.catalog.value, tools)
    requires req.DownloadRequest? || req.DownloadPlatformRequest? || req.DownloadLatestRequest?
    ensures var r := Route(req, snap, config, svc);
            r.Answer? && r.status == 302 ==>
              && snap.catalog.Some?
              && exists name :: name in snap.catalog.value.files && snap.catalog.value.files[name].Download?
                                && ServesEntry(r, snap.catalog.value.files[name].entry, config, svc)
  {
    var r := Route(req, snap, config, svc);
    if r.Answer? && r.status == 302 {
      match req
      case DownloadRequest(ua, update) =>
        var e := PlatformEntry(snap, AgentPlatform(ua, Truthy(update)).value).value;
        assert snap.catalog.value.files[e.name] == Download(e);
      case DownloadPlatformRequest(platform, update) =>
        var key := ResolvedPlatform(svc, RoutedPlatform(platform, Truthy(update))).value;
        var e := PlatformEntry(snap, key).value;
        assert snap.catalog.value.files[e.name] == Download(e);
      case DownloadLatestRequest(file) =>
        assert snap.catalog.value.files[file].Download?;
    }
  }

  /** A rejected version or platform name is answered without the cache:
      the answer does not depend on the snapshot, and `Handle` leaves the
      cache as it was. */
  lemma UpdateRejectsBeforeCache(platformName: string, version: string, s1: Snapshot, s2: Snapshot,
                                 config: Config, svc: Services)
    requires !svc.validVersion(version) || ResolvedPlatform(svc, platformName).None?
    ensures Update(platformName, version, s1, config, svc) == Update(platformName, version, s2, config, svc)
    ensures Update(platformName, version, s1, config, svc).Answer?
    ensures Update(platformName, version, s1, config, svc).status == 500
    ensures !ConsultsCache(UpdateRequest(platformName, version), svc)
  {
  }

  /** With a platform entry and SemVer versions on both sides, an update is
      offered exactly when the versions differ; otherwise there is nothing
      to send. */
  lemma UpdateOnAnyDifference(platformName: string, version: string, snap: Snapshot, config: Config, svc: Services)
    requires svc.validVersion(version) && ResolvedPlatform(svc, platformName).Some?
    requires PlatformEntry(snap, ResolvedPlatform(svc, platformName).value).Some?
    requires snap.version.Some? && svc.validVersion(snap.version.value)
    ensures var r := Update(platformName, version, snap, config, svc);
            && r.Answer?
            && (r.status == 200 <==> svc.compareVersions(snap.version.value, version) != 0)
            && (r.status != 200 ==> r == NoContent)
  {
  }

  /** A downgrade is offered like an upgrade: when the comparison is
      antisymmetric, a client on `b` with `a` cached is sent an update
      exactly when a client on `a` with `b` cached is. */
  lemma DowngradeLikeUpgrade(platformName: string, a: string, b: string, snap: Snapshot, config: Config, svc: Services)
    requires svc.validVersion(a) && svc.validVersion(b) && ResolvedPlatform(svc, platformName).Some?
    requires PlatformEntry(snap, ResolvedPlatform(svc, platformName).value).Some?
    requires svc.compareVersions(a, b) == -svc.compareVersions(b, a)
    ensures Update(platformName, b, snap.(version := Some(a)), config, svc).status == 200 <==>
            Update(platformName, a, snap.(version := Some(b)), config, svc).status == 200
  {
    UpdateOnAnyDifference(platformName, b, snap.(version := Some(a)), config, svc);
    UpdateOnAnyDifference(platformName, a, snap.(version := Some(b)), config, svc);
  }

  /** The address an update answer gives leads to the entry the update
      check found: in public mode it is that entry's URL; in proxy mode it is
      this server's platform download flagged as an update, whose answer,
      against the same snapshot, serves that entry (the Mac rewrite does not
      apply to it). */
  lemma UpdateUrlLeadsToEntry(platformName: string, version: string, snap: Snapshot, config: Config, svc: Services)
    requires Update(platformName, version, snap, config, svc).Answer?
    requires Update(platformName, version, snap, config, svc).status == 200
    ensures ResolvedPlatform(svc, platformName).Some?
    ensures var e := PlatformEntry(snap, ResolvedPlatform(svc, platformName).value);
            var url := Update(platformName, version, snap, config, svc).body.url;
            && e.Some?
            && (!ProxyMode(config) ==> url == e.value.url)
            && (ProxyMode(config) ==>
                  && url == UpdateUrl(config, platformName)
                  && DownloadPlatform(platformName, Some("true"), snap, config, svc) == Dispatch(e.value, config, svc))
  {
  }

  /** The `RELEASES` answer carries its UTF-8 byte count, and on a catalog a
      refresh built it is never a failure: the only text in `files` is
      the `RELEASES` text. */
  lemma ReleasesAnswer(snap: Snapshot, tools: Tools)
    requires snap.catalog.Some? ==> WellFormed(snap.catalog.value, tools)
    ensures Releases(snap).Answer?
    ensures Releases(snap).status == 200 ==>
              Releases(snap).body.Octets? && Releases(snap).body.contentLength == Utf8Length(Releases(snap).body.content)
  {
    if snap.catalog.Some? && "RELEASES" in snap.catalog.value.files {
      assert snap.catalog.value.files["RELEASES"].Text?;
    }
  }

  /** On a catalog a refresh built, a platform's file name served through
      `/download/latest/` is the same download as the platform itself. */
  lemma LatestFileIsPlatformDownload(key: string, snap: Snapshot, config: Config, tools: Tools, svc: Services)
    requires snap.catalog.Some? && WellFormed(snap.catalog.value, tools)
    requires key in snap.catalog.value.platforms
    ensures DownloadLatest(snap.catalog.value.platforms[key].name, snap, config, svc)
            == ServePlatform(Some(key), snap, config, svc)
  {
    var e := snap.catalog.value.platforms[key];
    assert snap.catalog.value.files[e.name] == Download(e);
  }

  /** On a catalog a refresh built, `/download/latest/` fails only for the
      `RELEASES` text and the manifests key; every other name is a redirect
      or "File not found". */
  lemma DownloadLatestFailsOnlyOnTexts(file: string, snap: Snapshot, config: Config, tools: Tools, svc: Services)
    requires snap.catalog.Some? && WellFormed(snap.catalog.value, tools)
    requires file != "RELEASES" && file != ElectronUpdaterKey
    requires ProxyMode(config) ==> forall u :: svc.upstream(u).Replied?
    ensures DownloadLatest(file, snap, config, svc).Answer?
  {
    if file in snap.catalog.value.files {
      assert snap.catalog.value.files[file].Download?;
    }
  }

  /** In public mode, an agent whose platform has a cached entry is sent to
      that entry's public URL. */
  lemma PublicDownloadGoesToEntryUrl(ua: UserAgent, update: Option<string>, snap: Snapshot, config: Config,
                                     svc: Services, e: Entry)
    requires !ProxyMode(config)
    requires AgentPlatform(ua, Truthy(update)).Some?
    requires PlatformEntry(snap, AgentPlatform(ua, Truthy(update)).value) == Some(e)
    ensures DownloadForAgent(ua, update, snap, config, svc) == Redirect(e.url)
  {
  }

  /** Once a refresh has built the catalog from `assets`, a manifest whose
      rewritten text is not empty, with no later asset of the same name, is
      served under its name with that text and its UTF-8 length. */
  lemma ManifestServedAfterRefresh(assets: seq<Asset>, src: AssetSource, j: nat, snap: Snapshot)
    requires j < |assets| && Classify(assets[j].name, src.tools) == ElectronManifest
    requires YmlText(assets[j], src).Some? && YmlText(assets[j], src).value != ""
    requires forall j' :: j < j' < |assets| ==> assets[j'].name != assets[j].name
    ensures var built := snap.(catalog := Some(Build(assets, src)));
            ElectronUpdater(assets[j].name, built) == Stream(YmlText(assets[j], src).value)
    ensures var built := snap.(catalog := Some(Build(assets, src)));
            ElectronUpdater(assets[j].name, built).body.contentLength == Utf8Length(YmlText(assets[j], src).value)
  {
    LastManifestWins(assets, src, j);
  }

  /** Once a refresh has built the catalog from `assets`, a non-empty
      rewritten `RELEASES` text of the last `RELEASES` asset is what the
      route serves, with its UTF-8 length. */
  lemma ReleasesServedAfterRefresh(assets: seq<Asset>, src: AssetSource, j: nat, snap: Snapshot)
    requires j < |assets| && assets[j].name == "RELEASES"
    requires forall j' :: j < j' < |assets| ==> assets[j'].name != "RELEASES"
    ensures var t := ReleasesText(assets[j], src);
            t.Some? && t.value != "" ==>
              Releases(snap.(catalog := Some(Build(assets, src)))) == Stream(t.value)
    ensures var t := ReleasesText(assets[j], src);
            t.Some? && t.value != "" ==>
              Releases(snap.(catalog := Some(Build(assets, src)))).body.contentLength == Utf8Length(t.value)
  {
    LastReleasesWins(assets, src, j);
  }

  /** After a refresh, a manifest name that no manifest asset of the
      release carries is not found: nothing of an earlier release is
      served. */
  lemma ManifestAbsentAfterRefresh(assets: seq<Asset>, src: AssetSource, file: string, snap: Snapshot)
    requires forall j :: 0 <= j < |assets| && assets[j].name == file ==>
               Classify(assets[j].name, src.tools) != ElectronManifest
    ensures ElectronUpdater(file, snap.(catalog := Some(Build(assets, src)))) == Plain(404, FileNotFound)
  {
    StoredNamesFromAssets(assets, src, file);
  }

  /** A platform asset that no later asset of the release displaces is what
      the platform's download serves once a refresh has built the catalog:
      a redirect to the asset's public download address in public mode, the
      relayed reply to its token-bearing API address in proxy mode. */
  lemma PlatformAssetServed(assets: seq<Asset>, src: AssetSource, j: nat, key: string,
                            snap: Snapshot, config: Config, svc: Services)
    requires j < |assets| && PlatformKey(assets[j], src.tools) == Some(key)
    requires forall j' :: j < j' < |assets| ==> PlatformKey(assets[j'], src.tools) != Some(key)
    ensures var r := ServePlatform(Some(key), snap.(catalog := Some(Build(assets, src))), config, svc);
            !ProxyMode(config) ==> r == Redirect(assets[j].browserDownloadUrl)
    ensures var r := ServePlatform(Some(key), snap.(catalog := Some(Build(assets, src))), config, svc);
            ProxyMode(config) ==>
              var reply := svc.upstream(ProxyUrl(assets[j].url, config.token.value));
              && (r.NoAnswer? <==> reply.Rejected?)
              && (reply.Replied? ==> r == Redirect(RelayedLocation(reply.location)))
  {
    LastAssetWins(assets, src, j, key);
  }
}
