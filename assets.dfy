/** What a refresh builds from the assets of the release it publishes: the
    download entry per platform key, the files by name (download entries and
    the rewritten `RELEASES` text), and the rewritten electron-updater
    manifests. Each asset is classified in a fixed order: `RELEASES`, then a
    `latest*.yml` name, then the platform table of `checkPlatform`. */
module Assets {
  import opened Strings
  import opened Manifests

  /** An asset of a GitHub release, as the releases API lists it. */
  datatype Asset = Asset(name: string, url: string, browserDownloadUrl: string, contentType: string, size: nat)

  /** A download entry: `api_url` is the API address of the asset, `url` its
      public download address, `size` in tenths of a megabyte. */
  datatype Entry = Entry(name: string, apiUrl: string, url: string, contentType: string, size: nat)

  /** A value of `latest.files`: a download entry or the cached text of a
      manifest. */
  datatype FileValue = Download(entry: Entry) | Text(text: string)

  /** `latest.platforms`, `latest.files` and `latest.files.electronUpdater`. */
  datatype Catalog = Catalog(
    platforms: map<string, Entry>,
    files: map<string, FileValue>,
    electronUpdater: map<string, string>)

  const EmptyCatalog := Catalog(map[], map[], map[])

  /** The code a refresh calls that is not part of this model:
      `checkPlatform` (the platform table for file names; a falsy answer,
      the empty string included, means no platform) and the YAML library. */
  datatype Tools = Tools(checkPlatform: string -> Option<string>, yaml: YamlCodec)

  /** Everything one refresh reads about the assets: this server's base URL,
      the body each asset URL answered with (None: the fetch failed after
      its retries), and the tools. */
  datatype AssetSource = AssetSource(baseUrl: string, bodies: map<string, Option<string>>, tools: Tools)

  datatype Kind = SquirrelIndex | ElectronManifest | Platform(key: string) | Ignored

  /** The order in which the refresh loop tests an asset's name. */
  function Classify(name: string, tools: Tools): (k: Kind)
    ensures name == "RELEASES" <==> k == SquirrelIndex
    ensures k == ElectronManifest <==> name != "RELEASES" && IsYmlName(name)
    ensures k.Platform? <==> name != "RELEASES" && !IsYmlName(name) && Truthy(tools.checkPlatform(name))
    ensures k.Platform? ==> tools.checkPlatform(name) == Some(k.key)
  {
    if name == "RELEASES" then SquirrelIndex
    else if IsYmlName(name) then ElectronManifest
    else if Truthy(tools.checkPlatform(name)) then Platform(tools.checkPlatform(name).value)
    else Ignored
  }

  /** `Math.round(size / 1000000 * 10)`: tenths of a megabyte, halves up. */
  function SizeTenths(bytes: nat): (t: nat)
    ensures t * 100000 <= bytes + 50000 < (t + 1) * 100000
  {
    (bytes + 50000) / 100000
  }

  /** The entry a platform asset is stored as: the API address of the asset
      is what a proxied download fetches, its public download address is
      where a public download redirects. */
  function EntryOf(a: Asset): (e: Entry)
    ensures e.name == a.name && e.contentType == a.contentType
    ensures e.apiUrl == a.url && e.url == a.browserDownloadUrl
    ensures e.size * 100000 <= a.size + 50000 < (e.size + 1) * 100000
  {
    Entry(a.name, a.url, a.browserDownloadUrl, a.contentType, SizeTenths(a.size))
  }

  function Fetched(bodies: map<string, Option<string>>, url: string): Option<string>
  {
    if url in bodies then bodies[url] else None
  }

  /** The rewritten `RELEASES` text, or None when the fetch or the rewrite
      failed (the refresh logs that and goes on). */
  function ReleasesText(a: Asset, src: AssetSource): (t: Option<string>)
    ensures t.None? <==> || Fetched(src.bodies, a.url).None?
                         || forall i, j :: !IsNupkgMatch(Fetched(src.bodies, a.url).value, i, j)
    ensures t.Some? ==> Success(t.value) == RewriteReleases(Fetched(src.bodies, a.url).value, src.baseUrl)
  {
    match Fetched(src.bodies, a.url)
    case None => None
    case Some(body) =>
      match RewriteReleases(body, src.baseUrl)
      case Failure(_) => None
      case Success(t) => Some(t)
  }

  /** The rewritten manifest text, or None when the fetch, the check or the
      parse failed. */
  function YmlText(a: Asset, src: AssetSource): (t: Option<string>)
    ensures t.None? <==> || Fetched(src.bodies, a.url).None?
                         || !HasInstallerRef(Fetched(src.bodies, a.url).value)
                         || src.tools.yaml.parse(Fetched(src.bodies, a.url).value).None?
    ensures t.Some? ==> Success(t.value) == CachedYml(Fetched(src.bodies, a.url).value, src.baseUrl, src.tools.yaml)
  {
    match Fetched(src.bodies, a.url)
    case None => None
    case Some(body) =>
      match CachedYml(body, src.baseUrl, src.tools.yaml)
      case Failure(_) => None
      case Success(t) => Some(t)
  }

  /** One pass of the asset loop. An asset it does not store leaves the
      catalog as it was; a platform asset replaces only its own key; the
      catalog stays well formed. */
  function Step(cat: Catalog, a: Asset, src: AssetSource): (r: Catalog)
    ensures Dropped(a, src) ==> r == cat
    ensures forall key :: key in cat.platforms && PlatformKey(a, src.tools) != Some(key) ==>
              key in r.platforms && r.platforms[key] == cat.platforms[key]
    ensures forall name :: name in cat.electronUpdater && name != a.name ==>
              name in r.electronUpdater && r.electronUpdater[name] == cat.electronUpdater[name]
    ensures forall name :: name in cat.files && name != a.name ==>
              name in r.files && r.files[name] == cat.files[name]
    ensures forall name :: name in r.files && name !in cat.files ==> name == a.name
    ensures forall name :: name in r.electronUpdater && name !in cat.electronUpdater ==>
              name == a.name && Classify(a.name, src.tools) == ElectronManifest
    ensures WellFormed(cat, src.tools) ==> WellFormed(r, src.tools)
  {
    match Classify(a.name, src.tools)
    case SquirrelIndex =>
      (match ReleasesText(a, src)
       case Some(t) => cat.(files := cat.files["RELEASES" := Text(t)])
       case None => cat)
    case ElectronManifest =>
      (match YmlText(a, src)
       case Some(t) => cat.(electronUpdater := cat.electronUpdater[a.name := t])
       case None => cat)
    case Platform(key) =>
      var e := EntryOf(a);
      cat.(platforms := cat.platforms[key := e], files := cat.files[a.name := Download(e)])
    case Ignored => cat
  }

  /** The catalog the loop builds from empty over `assets`, in order; it
      is always well formed. */
  function Build(assets: seq<Asset>, src: AssetSource): (r: Catalog)
    ensures WellFormed(r, src.tools)
  {
    if assets == [] then EmptyCatalog
    else Step(Build(assets[..|assets| - 1], src), assets[|assets| - 1], src)
  }

  /** The platform key an asset is stored under, if any. */
  function PlatformKey(a: Asset, tools: Tools): Option<string>
  {
    match Classify(a.name, tools)
    case Platform(key) => Some(key)
    case _ => None
  }

  /** One pass of the loop adds the asset's own platform key, if any, and
      no other. */
  lemma StepKeys(cat: Catalog, a: Asset, src: AssetSource, key: string)
    ensures key in Step(cat, a, src).platforms <==> key in cat.platforms || PlatformKey(a, src.tools) == Some(key)
  {
  }

  /** A platform key is present exactly when some asset of the release is
      classified under it: nothing survives from an earlier catalog. */
  lemma {:induction false} PlatformKeysFromAssets(assets: seq<Asset>, src: AssetSource, key: string)
    ensures key in Build(assets, src).platforms <==>
            exists j :: 0 <= j < |assets| && PlatformKey(assets[j], src.tools) == Some(key)
  {
    if assets != [] {
      var n := |assets| - 1;
      var init := assets[..n];
      PlatformKeysFromAssets(init, src, key);
      var prev := Build(init, src);
      assert Build(assets, src) == Step(prev, assets[n], src);
      StepKeys(prev, assets[n], src, key);
      KeyedSplit(assets, src.tools, key);
      assert Keyed(init, src.tools, key) <==> exists j :: 0 <= j < |init| && PlatformKey(init[j], src.tools) == Some(key);
    }
  }

  /** Some asset of the list is stored under the platform key `key`. */
  ghost predicate Keyed(assets: seq<Asset>, tools: Tools, key: string)
  {
    exists j :: 0 <= j < |assets| && PlatformKey(assets[j], tools) == Some(key)
  }

  /** Some asset is keyed under `key` exactly when one before the last is,
      or the last one is. */
  lemma KeyedSplit(assets: seq<Asset>, tools: Tools, key: string)
    requires assets != []
    ensures Keyed(assets, tools, key) <==>
            Keyed(assets[..|assets| - 1], tools, key) || PlatformKey(assets[|assets| - 1], tools) == Some(key)
  {
    var n := |assets| - 1;
    var init := assets[..n];
    if Keyed(assets, tools, key) {
      var j :| 0 <= j < |assets| && PlatformKey(assets[j], tools) == Some(key);
      if j < n {
        assert init[j] == assets[j];
      }
    }
    if Keyed(init, tools, key) {
      var j :| 0 <= j < |init| && PlatformKey(init[j], tools) == Some(key);
      assert assets[j] == init[j];
    }
  }

  /** Of several assets under one key, the last one wins. */
  lemma {:induction false} LastAssetWins(assets: seq<Asset>, src: AssetSource, j: nat, key: string)
    requires j < |assets| && PlatformKey(assets[j], src.tools) == Some(key)
    requires forall j' :: j < j' < |assets| ==> PlatformKey(assets[j'], src.tools) != Some(key)
    ensures key in Build(assets, src).platforms
    ensures Build(assets, src).platforms[key] == EntryOf(assets[j])
  {
    var n := |assets| - 1;
    if j < n {
      var init := assets[..n];
      assert init[j] == assets[j];
      assert forall j' :: j < j' < |init| ==> init[j'] == assets[j'];
      LastAssetWins(init, src, j, key);
      assert Build(assets, src) == Step(Build(init, src), assets[n], src);
    } else {
      assert Build(assets, src) == Step(Build(assets[..n], src), assets[j], src);
    }
  }

  /** Every platform entry is also a download under its own name in `files`,
      and its name is classified under its key; every value of `files` is a
      download stored under its own name, except the `RELEASES` text, which
      is the only text. */
  ghost predicate WellFormed(cat: Catalog, tools: Tools)
  {
    && (forall key :: key in cat.platforms ==>
          && Classify(cat.platforms[key].name, tools) == Platform(key)
          && cat.platforms[key].name in cat.files
          && cat.files[cat.platforms[key].name] == Download(cat.platforms[key]))
    && (forall name :: name in cat.files ==>
          && (cat.files[name].Text? <==> name == "RELEASES")
          && (cat.files[name].Download? ==> cat.files[name].entry.name == name))
  }

  /** Of several manifests under one name, the last one stored wins: a
      manifest whose text was produced, with no later asset of that name, is
      what the built catalog holds under its name. */
  lemma {:induction false} LastManifestWins(assets: seq<Asset>, src: AssetSource, j: nat)
    requires j < |assets| && Classify(assets[j].name, src.tools) == ElectronManifest
    requires YmlText(assets[j], src).Some?
    requires forall j' :: j < j' < |assets| ==> assets[j'].name != assets[j].name
    ensures assets[j].name in Build(assets, src).electronUpdater
    ensures Build(assets, src).electronUpdater[assets[j].name] == YmlText(assets[j], src).value
  {
    var n := |assets| - 1;
    if j < n {
      var init := assets[..n];
      assert init[j] == assets[j];
      assert forall j' :: j < j' < |init| ==> init[j'] == assets[j'];
      LastManifestWins(init, src, j);
      assert assets[n].name != assets[j].name;
      assert Build(assets, src) == Step(Build(init, src), assets[n], src);
    } else {
      assert Build(assets, src) == Step(Build(assets[..n], src), assets[j], src);
    }
  }

  /** The `RELEASES` text a refresh stores is the rewrite of the last
      `RELEASES` asset, when that rewrite succeeded. */
  lemma {:induction false} LastReleasesWins(assets: seq<Asset>, src: AssetSource, j: nat)
    requires j < |assets| && assets[j].name == "RELEASES"
    requires forall j' :: j < j' < |assets| ==> assets[j'].name != "RELEASES"
    ensures ReleasesText(assets[j], src).Some? ==>
              && "RELEASES" in Build(assets, src).files
              && Build(assets, src).files["RELEASES"] == Text(ReleasesText(assets[j], src).value)
  {
    var n := |assets| - 1;
    if j < n {
      var init := assets[..n];
      assert init[j] == assets[j];
      assert forall j' :: j < j' < |init| ==> init[j'] == assets[j'];
      LastReleasesWins(init, src, j);
      assert assets[n].name != "RELEASES";
      assert Build(assets, src) == Step(Build(init, src), assets[n], src);
    } else {
      assert Build(assets, src) == Step(Build(assets[..n], src), assets[j], src);
    }
  }

  /** Nothing in a built catalog comes from anywhere but the assets: every
      name in `files` and in the manifests is the name of an asset of the
      list, a manifest name that of a manifest asset. */
  lemma {:induction false} StoredNamesFromAssets(assets: seq<Asset>, src: AssetSource, name: string)
    ensures name in Build(assets, src).files ==> exists j :: 0 <= j < |assets| && assets[j].name == name
    ensures name in Build(assets, src).electronUpdater ==>
              exists j :: 0 <= j < |assets| && assets[j].name == name
                          && Classify(assets[j].name, src.tools) == ElectronManifest
  {
    if assets != [] {
      var n := |assets| - 1;
      var init := assets[..n];
      StoredNamesFromAssets(init, src, name);
      assert Build(assets, src) == Step(Build(init, src), assets[n], src);
      if name in Build(init, src).files {
        var j :| 0 <= j < |init| && init[j].name == name;
        assert assets[j] == init[j];
      }
      if name in Build(init, src).electronUpdater {
        var j :| 0 <= j < |init| && init[j].name == name && Classify(init[j].name, src.tools) == ElectronManifest;
        assert assets[j] == init[j];
      }
    }
  }

  /** Building continues from where a prefix left off. */
  function BuildFrom(cat: Catalog, assets: seq<Asset>, src: AssetSource): Catalog
  {
    if assets == [] then cat
    else Step(BuildFrom(cat, assets[..|assets| - 1], src), assets[|assets| - 1], src)
  }

  lemma {:induction false} BuildConcat(pre: seq<Asset>, post: seq<Asset>, src: AssetSource)
    ensures Build(pre + post, src) == BuildFrom(Build(pre, src), post, src)
  {
    if post == [] {
      assert pre + post == pre;
    } else {
      var n := |post| - 1;
      assert (pre + post)[..|pre + post| - 1] == pre + post[..n];
      BuildConcat(pre, post[..n], src);
    }
  }

  /** An asset the loop does not store (its fetch or rewrite failed, or its
      name is not recognised). */
  predicate Dropped(a: Asset, src: AssetSource)
  {
    match Classify(a.name, src.tools)
    case SquirrelIndex => ReleasesText(a, src).None?
    case ElectronManifest => YmlText(a, src).None?
    case Platform(_) => false
    case Ignored => true
  }

  /** A manifest that fails to fetch or parse leaves out only itself: the
      catalog is the one built without that asset. */
  lemma FailedAssetOmitted(pre: seq<Asset>, a: Asset, post: seq<Asset>, src: AssetSource)
    requires Dropped(a, src)
    ensures Build(pre + [a] + post, src) == Build(pre + post, src)
  {
    BuildConcat(pre + [a], post, src);
    BuildConcat(pre, post, src);
    assert (pre + [a])[..|pre + [a]| - 1] == pre;
    assert Build(pre + [a], src) == Build(pre, src);
  }
}
