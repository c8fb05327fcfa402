/** The release cache: the published snapshot of the latest release and the
    time of the last refresh, the refresh against the releases API, the TTL
    test and the load that refreshes when needed. The network is replaced by
    its answers, passed in: the release list (or the failure to get one),
    the body each asset URL answered with, and the current time. */
module ReleaseCache {
  import opened Strings
  import opened Configuration
  import opened Manifests
  import opened Assets

  /** `Date.now()`: milliseconds since the epoch, always positive (and so
      always truthy). */
  type Timestamp = t: int | t > 0 witness 1

  /** A release of the releases API. `tagName` may be missing; `assets` is
      None when it is missing or not an array. */
  datatype Release = Release(
    tagName: Option<string>,
    draft: bool,
    prerelease: bool,
    body: string,
    publishedAt: string,
    assets: Option<seq<Asset>>)

  /** The answer of the releases API: none after all retries (the refresh
      throws), a JSON value that is not an array, or the list. */
  datatype Feed = Unreachable | NotAList | Listed(releases: seq<Release>)

  /** `this.latest`. `catalog` is None until the first new tag is cached
      (`platforms` and `files` are undefined until then); `notes` and
      `pubDate` are meaningful only once it is set. */
  datatype Snapshot = Snapshot(version: Option<string>, notes: string, pubDate: string, catalog: Option<Catalog>)

  /** `{}`, the snapshot a new cache starts with. */
  const Unset := Snapshot(None, "", "", None)

  /** `isReleaseValid`: drafts never count, prereleases only when wanted. */
  predicate Qualifies(r: Release, wantPre: bool)
    ensures Qualifies(r, wantPre) ==> !r.draft
    ensures !r.draft && !r.prerelease ==> Qualifies(r, wantPre)
    ensures r.prerelease && !wantPre ==> !Qualifies(r, wantPre)
    ensures !r.draft && wantPre ==> Qualifies(r, wantPre)
  {
    !r.draft && (!r.prerelease || wantPre)
  }

  /** `data.find(isReleaseValid)`, as the index of the release found. */
  function FindQualifying(rs: seq<Release>, wantPre: bool): (r: Option<nat>)
    ensures r.Some? ==> r.value < |rs| && Qualifies(rs[r.value], wantPre)
    ensures r.Some? ==> forall k :: 0 <= k < r.value ==> !Qualifies(rs[k], wantPre)
    ensures r.None? ==> forall k :: 0 <= k < |rs| ==> !Qualifies(rs[k], wantPre)
  {
    if rs == [] then None
    else if Qualifies(rs[0], wantPre) then Some(0)
    else match FindQualifying(rs[1..], wantPre)
      case None => None
      case Some(i) => Some(i + 1)
  }

  /** The release a refresh acts on, or None when it returns early without
      touching anything: no list, an empty list, no qualifying release, or
      a release whose assets are not an array. */
  function Candidate(feed: Feed, wantPre: bool): (r: Option<Release>)
    ensures r.Some? ==> r.value.assets.Some?
    ensures r.Some? <==> && feed.Listed? && FindQualifying(feed.releases, wantPre).Some?
                         && feed.releases[FindQualifying(feed.releases, wantPre).value].assets.Some?
    ensures r.Some? ==> r.value == feed.releases[FindQualifying(feed.releases, wantPre).value]
  {
    match feed
    case Listed(rs) =>
      if |rs| == 0 then None
      else
        (match FindQualifying(rs, wantPre)
         case None => None
         case Some(i) => if rs[i].assets.None? then None else Some(rs[i]))
    case _ => None
  }

  function SourceFor(config: Config, tools: Tools, bodies: map<string, Option<string>>): AssetSource
  {
    AssetSource(UrlText(config), bodies, tools)
  }

  /** The state (`latest`, `lastUpdate`) after `refreshCache`. A refresh that
      fails or finds nothing changes nothing; one that finds the cached tag
      only stamps the time; one that finds a new tag rebuilds the catalog
      from empty and stamps the time. */
  function Refreshed(latest: Snapshot, lastUpdate: Option<Timestamp>, feed: Feed,
                     bodies: map<string, Option<string>>, config: Config, tools: Tools, now: Timestamp)
    : (r: (Snapshot, Option<Timestamp>))
    ensures r.1 == lastUpdate || r.1 == Some(now)
    ensures r.0 != latest ==> r.1 == Some(now) && r.0.catalog.Some? && WellFormed(r.0.catalog.value, tools)
  {
    match Candidate(feed, Truthy(config.pre))
    case None => (latest, lastUpdate)
    case Some(r) =>
      if r.tagName == latest.version then (latest, Some(now))
      else (Snapshot(r.tagName, r.body, r.publishedAt, Some(Build(r.assets.value, SourceFor(config, tools, bodies)))), Some(now))
  }

  class Cache {
    const config: Config
    const tools: Tools
    var latest: Snapshot
    var lastUpdate: Option<Timestamp>

    /** The constructor's checks passed, and the catalog, once there is one,
        keeps every platform entry under its name in `files`. */
    ghost predicate Valid()
      reads this
    {
      && ConfigError(config).None?
      && (latest.catalog.Some? ==> WellFormed(latest.catalog.value, tools))
    }

    /** `new Cache(config)` for a configuration that passes the checks; see
        NewCache for the one that throws. */
    constructor (config: Config, tools: Tools)
      requires ConfigError(config).None?
      ensures Valid()
      ensures this.config == config && this.tools == tools
      ensures latest == Unset && lastUpdate == None
    {
      this.config := config;
      this.tools := tools;
      latest := Unset;
      lastUpdate := None;
    }

    /** `refreshCache`. Returns true when it throws (the release list could
        not be fetched). */
    method RefreshCache(feed: Feed, bodies: map<string, Option<string>>, now: Timestamp) returns (failed: bool)
      requires Valid()
      modifies this
      ensures Valid()
      ensures failed <==> feed.Unreachable?
      ensures (latest, lastUpdate) == Refreshed(old(latest), old(lastUpdate), feed, bodies, config, tools, now)
    {
      if feed.Unreachable? {
        return true;
      }
      failed := false;
      if feed.NotAList? || |feed.releases| == 0 {
        return;
      }
      var found := FindQualifying(feed.releases, Truthy(config.pre));
      if found.None? {
        return;
      }
      var release := feed.releases[found.value];
      if release.assets.None? {
        return;
      }
      if latest.version == release.tagName {
        lastUpdate := Some(now);
        return;
      }
      latest := Snapshot(release.tagName, release.body, release.publishedAt, Some(EmptyCatalog));
      CacheAssets(release.assets.value, bodies);
      lastUpdate := Some(now);
    }

    /** The asset loop of `refreshCache`, on a snapshot whose catalog was
        just emptied: each asset is classified and stored in turn. */
    method CacheAssets(assets: seq<Asset>, bodies: map<string, Option<string>>)
      requires latest.catalog == Some(EmptyCatalog)
      modifies this
      ensures latest == old(latest).(catalog := Some(Build(assets, SourceFor(config, tools, bodies))))
      ensures lastUpdate == old(lastUpdate)
    {
      var base := UrlText(config);
      ghost var src := SourceFor(config, tools, bodies);
      ghost var start := latest;
      for i := 0 to |assets|
        invariant latest == start.(catalog := Some(Build(assets[..i], src)))
        invariant lastUpdate == old(lastUpdate)
      {
        assert assets[..i + 1][..i] == assets[..i];
        var asset := assets[i];
        var cat := latest.catalog.value;
        if asset.name == "RELEASES" {
          var body := Fetched(bodies, asset.url);
          if body.Some? {
            var content := RewriteReleases(body.value, base);
            if content.Success? {
              latest := latest.(catalog := Some(cat.(files := cat.files["RELEASES" := Text(content.value)])));
            }
          }
          continue;
        }
        if IsYmlName(asset.name) {
          var body := Fetched(bodies, asset.url);
          if body.Some? {
            var content := CacheYmlReleases(body.value, base, tools.yaml);
            if content.Success? {
              latest := latest.(catalog := Some(cat.(electronUpdater := cat.electronUpdater[asset.name := content.value])));
            }
          }
          continue;
        }
        var platform := tools.checkPlatform(asset.name);
        if !Truthy(platform) {
          continue;
        }
        var entry := EntryOf(asset);
        latest := latest.(catalog := Some(cat.(platforms := cat.platforms[platform.value := entry])));
        cat := latest.catalog.value;
        latest := latest.(catalog := Some(cat.(files := cat.files[entry.name := Download(entry)])));
      }
      assert assets[..|assets|] == assets;
    }

    /** `isOutdated` at time `now`: a refresh stamped the time, and more
        than the interval has passed since. */
    function IsOutdated(now: int): (stale: bool)
      reads this
      ensures stale ==> lastUpdate.Some? && now > lastUpdate.value
    {
      lastUpdate.Some? && now - lastUpdate.value > IntervalMs(config)
    }

    /** The state `loadCache` leaves: it refreshes when no refresh has
        stamped the time yet or the cache is outdated. */
    function Loaded(feed: Feed, bodies: map<string, Option<string>>, now: Timestamp): (Snapshot, Option<Timestamp>)
      reads this
    {
      if lastUpdate.None? || IsOutdated(now) then Refreshed(latest, lastUpdate, feed, bodies, config, tools, now)
      else (latest, lastUpdate)
    }

    /** `loadCache`: refresh when needed, ignore a failed refresh, and return
        a copy of the (possibly new) snapshot. */
    method LoadCache(feed: Feed, bodies: map<string, Option<string>>, now: Timestamp) returns (snapshot: Snapshot)
      requires Valid()
      modifies this
      ensures Valid()
      ensures (latest, lastUpdate) == old(Loaded(feed, bodies, now))
      ensures snapshot == latest
    {
      if lastUpdate.None? || IsOutdated(now) {
        var _ := RefreshCache(feed, bodies, now);
      }
      snapshot := latest;
    }
  }

  /** `new Cache(config)`: throws `missing_configuration_properties` for a
      configuration that fails the checks, else a cache with nothing in it. */
  method NewCache(config: Config, tools: Tools) returns (r: Result<Cache>)
    ensures r.Failure? <==> ConfigError(config).Some?
    ensures r.Failure? ==> r.error == MissingProperties
    ensures r.Success? ==> fresh(r.value) && r.value.Valid() && r.value.config == config
    ensures r.Success? ==> r.value.latest == Unset && r.value.lastUpdate == None
  {
    var issue := ConfigError(config);
    if issue.Some? {
      return Failure(issue.value.code);
    }
    var c := new Cache(config, tools);
    return Success(c);
  }

  // ---------------------------------------------------------------------
  // Properties of refresh and staleness

  /** Nothing at all changes, `lastUpdate` included, when the list is not a
      non-empty array, no release qualifies, or its assets are not an
      array. */
  lemma NoCandidateNoChange(latest: Snapshot, lastUpdate: Option<Timestamp>, feed: Feed,
                            bodies: map<string, Option<string>>, config: Config, tools: Tools, now: Timestamp)
    requires || feed.NotAList?
             || (feed.Listed? && forall k :: 0 <= k < |feed.releases| ==> !Qualifies(feed.releases[k], Truthy(config.pre)))
             || (feed.Listed? && exists k :: 0 <= k < |feed.releases| && Qualifies(feed.releases[k], Truthy(config.pre))
                                    && feed.releases[k].assets.None?
                                    && forall k' :: 0 <= k' < k ==> !Qualifies(feed.releases[k'], Truthy(config.pre)))
    ensures Refreshed(latest, lastUpdate, feed, bodies, config, tools, now) == (latest, lastUpdate)
  {
    if feed.Listed? && |feed.releases| > 0 {
      var found := FindQualifying(feed.releases, Truthy(config.pre));
      if found.Some? && exists k :: 0 <= k < |feed.releases| && Qualifies(feed.releases[k], Truthy(config.pre))
                                    && feed.releases[k].assets.None?
                                    && forall k' :: 0 <= k' < k ==> !Qualifies(feed.releases[k'], Truthy(config.pre)) {
        var k :| 0 <= k < |feed.releases| && Qualifies(feed.releases[k], Truthy(config.pre))
                 && feed.releases[k].assets.None?
                 && forall k' :: 0 <= k' < k ==> !Qualifies(feed.releases[k'], Truthy(config.pre));
        assert found.value == k;
      }
    }
  }

  /** The release acted on is the first that is not a draft and is not a
      prerelease unless prereleases are wanted. */
  lemma CandidateIsFirstQualifying(feed: Feed, wantPre: bool)
    requires Candidate(feed, wantPre).Some?
    ensures feed.Listed?
    ensures exists i :: 0 <= i < |feed.releases| && feed.releases[i] == Candidate(feed, wantPre).value
                        && Qualifies(feed.releases[i], wantPre)
                        && forall k :: 0 <= k < i ==> !Qualifies(feed.releases[k], wantPre)
  {
    assert feed.Listed?;
    var i := FindQualifying(feed.releases, wantPre).value;
    assert feed.releases[i] == Candidate(feed, wantPre).value;
  }

  /** Conversely, the first qualifying release of a list is acted on
      whenever its assets are an array, however long the list is. */
  lemma FirstQualifyingIsActedOn(rs: seq<Release>, wantPre: bool, i: nat)
    requires i < |rs| && Qualifies(rs[i], wantPre) && rs[i].assets.Some?
    requires forall k :: 0 <= k < i ==> !Qualifies(rs[k], wantPre)
    ensures Candidate(Listed(rs), wantPre) == Some(rs[i])
  {
    var f := FindQualifying(rs, wantPre);
    assert f.Some?;
    assert !(f.value < i) && !(i < f.value);
  }

  /** The same tag as the cached version: only the time is stamped. */
  lemma SameTagOnlyStamps(latest: Snapshot, lastUpdate: Option<Timestamp>, feed: Feed,
                          bodies: map<string, Option<string>>, config: Config, tools: Tools, now: Timestamp)
    requires Candidate(feed, Truthy(config.pre)).Some?
    requires Candidate(feed, Truthy(config.pre)).value.tagName == latest.version
    ensures Refreshed(latest, lastUpdate, feed, bodies, config, tools, now) == (latest, Some(now))
  {
  }

  /** A new tag: version, notes and date come from the release, and the
      platform keys are exactly those of its assets, nothing kept from the
      catalog before. */
  lemma NewTagRebuilds(latest: Snapshot, lastUpdate: Option<Timestamp>, feed: Feed,
                       bodies: map<string, Option<string>>, config: Config, tools: Tools, now: Timestamp, key: string)
    requires Candidate(feed, Truthy(config.pre)).Some?
    requires Candidate(feed, Truthy(config.pre)).value.tagName != latest.version
    ensures var r := Candidate(feed, Truthy(config.pre)).value;
            var (s, t) := Refreshed(latest, lastUpdate, feed, bodies, config, tools, now);
            && t == Some(now)
            && s.version == r.tagName && s.notes == r.body && s.pubDate == r.publishedAt
            && s.catalog == Some(Build(r.assets.value, SourceFor(config, tools, bodies)))
            && (key in s.catalog.value.platforms <==>
                exists j :: 0 <= j < |r.assets.value| && PlatformKey(r.assets.value[j], tools) == Some(key))
  {
    var r := Candidate(feed, Truthy(config.pre)).value;
    PlatformKeysFromAssets(r.assets.value, SourceFor(config, tools, bodies), key);
  }

  /** A second refresh against the same upstream changes only the time: the
      snapshot the first one published stays as it is. */
  lemma RefreshTwiceKeepsSnapshot(latest: Snapshot, lastUpdate: Option<Timestamp>, feed: Feed,
                                  bodies: map<string, Option<string>>, config: Config, tools: Tools,
                                  now: Timestamp, later: Timestamp)
    ensures var (s1, t1) := Refreshed(latest, lastUpdate, feed, bodies, config, tools, now);
            var (s2, t2) := Refreshed(s1, t1, feed, bodies, config, tools, later);
            && s2 == s1
            && (Candidate(feed, Truthy(config.pre)).Some? ==> t1 == Some(now) && t2 == Some(later))
            && (Candidate(feed, Truthy(config.pre)).None? ==> t2 == t1 == lastUpdate)
  {
  }

  /** Staleness is strict: exactly the interval after the stamp is still
      fresh, one millisecond more is stale. */
  lemma OutdatedBoundary(c: Cache, t: Timestamp)
    requires c.lastUpdate == Some(t)
    ensures !c.IsOutdated(t + IntervalMs(c.config))
    ensures c.IsOutdated(t + IntervalMs(c.config) + 1)
  {
  }

  /** Never stale before a refresh stamped the time, and never stale at the
      moment it was stamped. */
  lemma OutdatedNeedsStamp(c: Cache, now: Timestamp)
    ensures c.lastUpdate.None? ==> !c.IsOutdated(now)
    ensures c.lastUpdate == Some(now) ==> !c.IsOutdated(now)
  {
  }

  /** Once stale, stale at every later time. */
  lemma OutdatedMonotone(c: Cache, now: int, later: int)
    requires now <= later && c.IsOutdated(now)
    ensures c.IsOutdated(later)
  {
  }

  /** The example of two releases, a draft first: the second is the one
      acted on. */
  lemma DraftSkipped(a: Asset)
    ensures var draft := Release(Some("v2.0.0"), true, false, "", "", Some([a]));
            var stable := Release(Some("v1.0.0"), false, false, "", "", Some([a]));
            Candidate(Listed([draft, stable]), false) == Some(stable)
  {
    var draft := Release(Some("v2.0.0"), true, false, "", "", Some([a]));
    var stable := Release(Some("v1.0.0"), false, false, "", "", Some([a]));
    assert [draft, stable][1..] == [stable];
    assert FindQualifying([stable], false) == Some(0);
    assert FindQualifying([draft, stable], false) == Some(1);
  }

  /** `PRE` decides whether a prerelease listed first is acted on: with it
      set the prerelease is, without it the stable release after it is. */
  lemma PrereleaseNeedsPre(a: Asset)
    ensures var pre := Release(Some("v2.0.0-beta.1"), false, true, "", "", Some([a]));
            var stable := Release(Some("v1.0.0"), false, false, "", "", Some([a]));
            && Candidate(Listed([pre, stable]), true) == Some(pre)
            && Candidate(Listed([pre, stable]), false) == Some(stable)
  {
    var pre := Release(Some("v2.0.0-beta.1"), false, true, "", "", Some([a]));
    var stable := Release(Some("v1.0.0"), false, false, "", "", Some([a]));
    assert [pre, stable][1..] == [stable];
    assert FindQualifying([pre, stable], true) == Some(0);
    assert FindQualifying([stable], false) == Some(0);
    assert FindQualifying([pre, stable], false) == Some(1);
  }
}
