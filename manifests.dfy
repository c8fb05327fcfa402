/** The two rewrites the cache applies to update manifests fetched from the
    release, so that their download links point back at this server:
    the Squirrel `RELEASES` index (plain text, one regular-expression match
    rewritten) and the electron-updater `latest*.yml` manifest (its `files`
    list, every `url` rewritten). Also the two name and content tests that
    decide whether an asset is such a manifest. */
module Manifests {
  import opened Strings

  const LatestPrefix := "/download/latest/"

  /** The link this server answers under `/download/latest/:file`. */
  function DownloadLatestUrl(base: string, file: string): string
  {
    base + LatestPrefix + file
  }

  // ---------------------------------------------------------------------
  // Squirrel RELEASES: the first match of /[^ ]*\.nupkg/i

  const Nupkg := ".nupkg"

  /** `.nupkg`, in any letter case, at position k. */
  predicate NupkgAt(s: string, k: int)
  {
    MatchesCiAt(s, k, Nupkg)
  }

  /** s[i..j] matches `[^ ]*\.nupkg` case-insensitively: no space in it, and
      it ends with `.nupkg`. Line breaks are not spaces. */
  predicate IsNupkgMatch(s: string, i: int, j: int)
  {
    0 <= i && i + 6 <= j <= |s| && (forall k :: i <= k < j ==> s[k] != ' ') && NupkgAt(s, j - 6)
  }

  /** The match a JavaScript regular expression reports first: it starts
      leftmost, and from that start the greedy `[^ ]*` makes it longest. */
  ghost predicate IsFirstNupkgMatch(s: string, i: int, j: int)
  {
    && IsNupkgMatch(s, i, j)
    && (forall i', j' :: IsNupkgMatch(s, i', j') ==> i <= i')
    && (forall j' :: IsNupkgMatch(s, i, j') ==> j' <= j)
  }

  lemma FirstNupkgMatchUnique(s: string, i: int, j: int, i': int, j': int)
    requires IsFirstNupkgMatch(s, i, j) && IsFirstNupkgMatch(s, i', j')
    ensures i == i' && j == j'
  {
  }

  /** The first `.nupkg` at or after `from`. */
  function FindNupkg(s: string, from: nat): (r: Option<nat>)
    requires from <= |s|
    decreases |s| - from
    ensures r.Some? ==> from <= r.value && NupkgAt(s, r.value)
    ensures r.Some? ==> forall k :: from <= k < r.value ==> !NupkgAt(s, k)
    ensures r.None? ==> forall k :: from <= k ==> !NupkgAt(s, k)
  {
    if NupkgAt(s, from) then Some(from)
    else if from == |s| then None
    else FindNupkg(s, from + 1)
  }

  /** Start of the run of non-space characters that ends at k. */
  function RunStart(s: string, k: nat): (p: nat)
    requires k <= |s|
    ensures p <= k && (p == 0 || s[p - 1] == ' ')
    ensures forall q :: p <= q < k ==> s[q] != ' '
  {
    if k == 0 || s[k - 1] == ' ' then k else RunStart(s, k - 1)
  }

  /** End of the run of non-space characters that starts at k. */
  function RunEnd(s: string, k: nat): (e: nat)
    requires k <= |s|
    decreases |s| - k
    ensures k <= e <= |s| && (e == |s| || s[e] == ' ')
    ensures forall q :: k <= q < e ==> s[q] != ' '
  {
    if k == |s| || s[k] == ' ' then k else RunEnd(s, k + 1)
  }

  /** The last `.nupkg` in [lo, hi], given one at lo. */
  function LastNupkg(s: string, lo: nat, hi: nat): (k: nat)
    requires lo <= hi && NupkgAt(s, lo)
    decreases hi - lo
    ensures lo <= k <= hi && NupkgAt(s, k)
    ensures forall q :: k < q <= hi ==> !NupkgAt(s, q)
  {
    if NupkgAt(s, hi) then hi else LastNupkg(s, lo, hi - 1)
  }

  /** `.nupkg` holds no space, so a run containing one reaches past it. */
  lemma NupkgFitsRun(s: string, k: nat)
    requires NupkgAt(s, k)
    ensures k + 6 <= RunEnd(s, k)
  {
    forall q | k <= q < k + 6 ensures s[q] != ' ' {
      assert LowerAscii(s[k + (q - k)]) == Nupkg[q - k];
    }
  }

  /** The first match starts where the run holding the first `.nupkg` starts
      and ends after the last `.nupkg` of that run. */
  function FirstNupkgMatch(s: string): (r: Option<(nat, nat)>)
    ensures r.None? <==> forall i, j :: !IsNupkgMatch(s, i, j)
    ensures r.Some? ==> IsFirstNupkgMatch(s, r.value.0, r.value.1)
  {
    match FindNupkg(s, 0)
    case None => None
    case Some(k0) =>
      NupkgFitsRun(s, k0);
      var start := RunStart(s, k0);
      var stop := RunEnd(s, k0);
      var last := LastNupkg(s, k0, stop - 6);
      FirstNupkgMatchCorrect(s, k0, start, stop, last);
      Some((start, last + 6))
  }

  lemma FirstNupkgMatchCorrect(s: string, k0: nat, start: nat, stop: nat, last: nat)
    requires k0 <= |s| && FindNupkg(s, 0) == Some(k0)
    requires k0 + 6 <= stop
    requires start == RunStart(s, k0) && stop == RunEnd(s, k0)
    requires last == LastNupkg(s, k0, stop - 6)
    ensures IsFirstNupkgMatch(s, start, last + 6)
  {
    assert IsNupkgMatch(s, start, last + 6);
    forall i', j' | IsNupkgMatch(s, i', j') ensures start <= i' {
      assert NupkgAt(s, j' - 6);
    }
    forall j' | IsNupkgMatch(s, start, j') ensures j' <= last + 6 {
      assert NupkgAt(s, j' - 6);
    }
  }

  /** A copy of the first match's text sitting at q is itself a match. */
  lemma CopyOfMatchIsMatch(s: string, i: nat, j: nat, q: nat)
    requires IsNupkgMatch(s, i, j)
    requires OccursAt(s, s[i..j], q)
    ensures IsNupkgMatch(s, q, q + (j - i))
  {
    var m := s[i..j];
    forall k | q <= k < q + (j - i) ensures s[k] != ' ' {
      assert s[k] == s[q..q + |m|][k - q] == m[k - q] == s[i + (k - q)];
    }
    forall k | 0 <= k < 6 ensures LowerAscii(s[q + (j - i) - 6 + k]) == Nupkg[k] {
      assert s[q + (j - i) - 6 + k] == s[q..q + |m|][j - i - 6 + k] == m[j - i - 6 + k] == s[j - 6 + k];
    }
  }

  /** The text of the first match first occurs where the match is, so
      replacing that text replaces the match itself. */
  lemma FirstMatchTextFirstOccurs(s: string, i: nat, j: nat)
    requires IsFirstNupkgMatch(s, i, j)
    ensures FirstOccurrence(s, s[i..j], i)
  {
    forall q | 0 <= q < i ensures !OccursAt(s, s[i..j], q) {
      if OccursAt(s, s[i..j], q) {
        CopyOfMatchIsMatch(s, i, j, q);
      }
    }
  }

  /** `cacheReleaseList`: take the first match of `[^ ]*\.nupkg`, and replace
      the first occurrence of its text by the link this server answers for
      it. A body without a match is an error. */
  function RewriteReleases(content: string, base: string): (r: Result<string>)
    ensures r.Failure? <==> forall i, j :: !IsNupkgMatch(content, i, j)
    ensures forall i, j :: IsFirstNupkgMatch(content, i, j) ==>
              r == Success(content[..i] + DownloadLatestUrl(base, content[i..j]) + content[j..])
  {
    match FirstNupkgMatch(content)
    case None => Failure("Tried to cache RELEASES, but failed. RELEASES content doesn't contain nupkg")
    case Some((i, j)) =>
      var m := content[i..j];
      RewriteAtFirstMatch(content, base, i, j);
      Success(ReplaceFirst(content, m, DownloadLatestUrl(base, m)))
  }

  lemma RewriteAtFirstMatch(content: string, base: string, i: nat, j: nat)
    requires IsFirstNupkgMatch(content, i, j)
    ensures ReplaceFirst(content, content[i..j], DownloadLatestUrl(base, content[i..j]))
            == content[..i] + DownloadLatestUrl(base, content[i..j]) + content[j..]
    ensures forall i', j' :: IsFirstNupkgMatch(content, i', j') ==> i' == i && j' == j
  {
    var m := content[i..j];
    FirstMatchTextFirstOccurs(content, i, j);
    assert content[i + |m|..] == content[j..];
  }

  /** Everything around the match, and so every later `.nupkg`, is kept: the
      body before the match is a prefix of the result and the body after it
      a suffix. */
  lemma RewriteReleasesKeepsRest(content: string, base: string, i: nat, j: nat)
    requires IsFirstNupkgMatch(content, i, j)
    ensures RewriteReleases(content, base).Success?
    ensures var r := RewriteReleases(content, base).value;
      && |r| == |content| + |base| + |LatestPrefix|
      && r[..i] == content[..i]
      && r[|r| - (|content| - j)..] == content[j..]
  {
    RewriteAtFirstMatch(content, base, i, j);
    var link := DownloadLatestUrl(base, content[i..j]);
    var r := content[..i] + link + content[j..];
    assert RewriteReleases(content, base) == Success(r);
    assert |link| == |base| + |LatestPrefix| + (j - i);
    assert r[..i] == content[..i];
    assert r[|r| - (|content| - j)..] == content[j..];
  }

  // ---------------------------------------------------------------------
  // electron-updater manifests

  /** One entry of a manifest's `files` list: its `url` and the other keys,
      kept as they were parsed. */
  datatype FileInfo = FileInfo(url: string, other: seq<(string, string)>)

  /** A parsed `latest*.yml`: the `files` list and every other top-level key. */
  datatype YmlDoc = YmlDoc(files: seq<FileInfo>, other: seq<(string, string)>)

  /** The YAML library: `parse` fails (None) on text that is not YAML or has
      no `files` list of entries with string urls. */
  datatype YamlCodec = YamlCodec(parse: string -> Option<YmlDoc>, stringify: YmlDoc -> string)

  /** The entry with its url pointing at this server. */
  function Redirected(f: FileInfo, base: string): FileInfo
  {
    f.(url := DownloadLatestUrl(base, f.url))
  }

  /** Every entry keeps its place and its other keys; its url is prefixed. */
  function WithDownloadUrls(files: seq<FileInfo>, base: string): (r: seq<FileInfo>)
    ensures |r| == |files|
    ensures forall k :: 0 <= k < |r| ==> r[k].other == files[k].other
    ensures forall k :: 0 <= k < |r| ==> r[k].url == base + "/download/latest/" + files[k].url
  {
    if files == [] then [] else [Redirected(files[0], base)] + WithDownloadUrls(files[1..], base)
  }

  /** The inverse of the rewrite: drop the prefix this server put in front. */
  function OriginalUrls(files: seq<FileInfo>, base: string): (r: seq<FileInfo>)
    ensures |r| == |files|
  {
    if files == [] then []
    else
      var u := files[0].url;
      var p := base + LatestPrefix;
      var orig := if |p| <= |u| && u[..|p|] == p then u[|p|..] else u;
      [files[0].(url := orig)] + OriginalUrls(files[1..], base)
  }

  /** The rewrite loses nothing: every original url can be read back. */
  lemma {:induction false} UrlRewriteRoundTrip(files: seq<FileInfo>, base: string)
    ensures OriginalUrls(WithDownloadUrls(files, base), base) == files
  {
    if files != [] {
      var w := WithDownloadUrls(files, base);
      var p := base + LatestPrefix;
      assert w[0].url == p + files[0].url;
      assert w[0].url[..|p|] == p && w[0].url[|p|..] == files[0].url;
      assert w[1..] == WithDownloadUrls(files[1..], base);
      UrlRewriteRoundTrip(files[1..], base);
    }
  }

  /** The index loop of `cacheYmlReleases`: each `files[i].url` is replaced,
      in place, by the link this server answers for it. */
  method RewriteFileUrls(files: array<FileInfo>, base: string)
    modifies files
    ensures files[..] == WithDownloadUrls(old(files[..]), base)
  {
    for i := 0 to files.Length
      invariant forall k :: 0 <= k < i ==> files[k] == Redirected(old(files[k]), base)
      invariant forall k :: i <= k < files.Length ==> files[k] == old(files[k])
    {
      var url := files[i].url;
      var newName := base + "/download/latest/" + url;
      ReplaceWhole(url, newName);
      files[i] := files[i].(url := ReplaceFirst(files[i].url, url, newName));
    }
  }

  /** The dotted extensions of `\.(exe|deb|rpm|AppImage|dmg)`, lower-cased
      for the case-insensitive match. */
  const InstallerExtensions := [".exe", ".deb", ".rpm", ".appimage", ".dmg"]

  /** `.exe`, `.deb`, `.rpm`, `.AppImage` or `.dmg`, in any case, at k. */
  predicate InstallerRefAt(s: string, k: int)
  {
    exists x :: x in InstallerExtensions && MatchesCiAt(s, k, x)
  }

  /** The body has a match of `[^ ]*\.(exe|deb|rpm|AppImage|dmg)` (the star
      may match nothing, so any such extension anywhere will do). */
  predicate HasInstallerRef(s: string)
  {
    exists k :: 0 <= k < |s| && InstallerRefAt(s, k)
  }

  /** An installer file name anywhere in a manifest body passes the test,
      whatever the letter case of its extension. */
  lemma InstallerRefsAnywhere(pre: string, post: string)
    ensures HasInstallerRef(pre + ".exe" + post)
    ensures HasInstallerRef(pre + ".deb" + post)
    ensures HasInstallerRef(pre + ".rpm" + post)
    ensures HasInstallerRef(pre + ".dmg" + post)
    ensures HasInstallerRef(pre + ".AppImage" + post)
  {
    var k := |pre|;
    WordAt(pre + ".exe" + post, k, ".exe");
    assert InstallerRefAt(pre + ".exe" + post, k);
    WordAt(pre + ".deb" + post, k, ".deb");
    assert InstallerRefAt(pre + ".deb" + post, k);
    WordAt(pre + ".rpm" + post, k, ".rpm");
    assert InstallerRefAt(pre + ".rpm" + post, k);
    WordAt(pre + ".dmg" + post, k, ".dmg");
    assert InstallerRefAt(pre + ".dmg" + post, k);
    var s := pre + ".AppImage" + post;
    forall q | 0 <= q < 9 ensures LowerAscii(s[k + q]) == ".appimage"[q] {
      if q == 0 { assert s[k] == '.'; }
      else if q == 1 { assert s[k + 1] == 'A'; }
      else if q == 2 { assert s[k + 2] == 'p'; }
      else if q == 3 { assert s[k + 3] == 'p'; }
      else if q == 4 { assert s[k + 4] == 'I'; }
      else if q == 5 { assert s[k + 5] == 'm'; }
      else if q == 6 { assert s[k + 6] == 'a'; }
      else if q == 7 { assert s[k + 7] == 'g'; }
      else { assert s[k + 8] == 'e'; }
    }
    assert MatchesCiAt(s, k, ".appimage");
    assert InstallerRefAt(s, k);
  }

  /** What `cacheYmlReleases` returns for a fetched body. */
  function CachedYml(body: string, base: string, yaml: YamlCodec): (r: Result<string>)
    ensures r.Failure? <==> !HasInstallerRef(body) || yaml.parse(body).None?
    ensures r.Success? ==> r.value == yaml.stringify(yaml.parse(body).value.(files := WithDownloadUrls(yaml.parse(body).value.files, base)))
  {
    if !HasInstallerRef(body) then
      Failure("Tried to cache electron-updater .yml file, but failed. latest.yml doesn't contain any files.")
    else match yaml.parse(body)
      case None => Failure("YAML.parse failed")
      case Some(doc) => Success(yaml.stringify(doc.(files := WithDownloadUrls(doc.files, base))))
  }

  /** `cacheYmlReleases` after the fetch: check the body names an installer,
      parse it, rewrite the urls of its `files` in place and serialise it. */
  method CacheYmlReleases(body: string, base: string, yaml: YamlCodec) returns (r: Result<string>)
    ensures r == CachedYml(body, base, yaml)
  {
    if !HasInstallerRef(body) {
      return Failure("Tried to cache electron-updater .yml file, but failed. latest.yml doesn't contain any files.");
    }
    var parsed := yaml.parse(body);
    if parsed.None? {
      return Failure("YAML.parse failed");
    }
    var doc := parsed.value;
    var files := new FileInfo[|doc.files|](k requires 0 <= k < |doc.files| => doc.files[k]);
    assert files[..] == doc.files;
    RewriteFileUrls(files, base);
    r := Success(yaml.stringify(doc.(files := files[..])));
  }

  // ---------------------------------------------------------------------
  // Names of electron-updater manifests: /latest(-mac|-linux(-arm64)*)*\.yml/i

  /** The part of the pattern after `latest`, from position i: any sequence
      of `-mac` and `-linux` blocks, an `-linux` block followed by any number
      of `-arm64`, then `.yml`. `armOk` says whether an `-arm64` may come
      next. */
  predicate YmlTail(s: string, i: nat, armOk: bool)
    decreases |s| - i
    ensures YmlTail(s, i, armOk) ==> exists k :: i <= k && MatchesCiAt(s, k, ".yml")
  {
    i <= |s| &&
    (|| MatchesCiAt(s, i, ".yml")
     || (MatchesCiAt(s, i, "-mac") && YmlTail(s, i + 4, false))
     || (MatchesCiAt(s, i, "-linux") && YmlTail(s, i + 6, true))
     || (armOk && MatchesCiAt(s, i, "-arm64") && YmlTail(s, i + 6, true)))
  }

  /** The name contains a match of the pattern anywhere: it is not anchored. */
  predicate IsYmlName(name: string)
    ensures IsYmlName(name) ==> exists k :: 6 <= k && MatchesCiAt(name, k, ".yml")
  {
    exists i :: 0 <= i <= |name| && MatchesCiAt(name, i, "latest") && YmlTail(name, i + 6, false)
  }

  /** A lower-case word standing at i is matched whatever the case flag. */
  lemma WordAt(s: string, i: nat, w: string)
    requires i + |w| <= |s| && forall k :: 0 <= k < |w| ==> s[i + k] == w[k]
    requires forall k :: 0 <= k < |w| ==> !('A' <= w[k] <= 'Z')
    ensures MatchesCiAt(s, i, w)
  {
  }

  lemma PlainYmlName(pre: string, post: string)
    ensures IsYmlName(pre + "latest" + ".yml" + post)
  {
    var s, i := pre + "latest" + ".yml" + post, |pre|;
    WordAt(s, i, "latest");
    WordAt(s, i + 6, ".yml");
    assert MatchesCiAt(s, i, "latest") && YmlTail(s, i + 6, false);
  }

  lemma MacYmlName(pre: string, post: string)
    ensures IsYmlName(pre + "latest" + "-mac" + ".yml" + post)
  {
    var s, i := pre + "latest" + "-mac" + ".yml" + post, |pre|;
    WordAt(s, i, "latest");
    WordAt(s, i + 6, "-mac");
    WordAt(s, i + 10, ".yml");
    assert YmlTail(s, i + 10, false);
    assert MatchesCiAt(s, i, "latest") && YmlTail(s, i + 6, false);
  }

  lemma LinuxYmlName(pre: string, post: string)
    ensures IsYmlName(pre + "latest" + "-linux" + ".yml" + post)
  {
    var s, i := pre + "latest" + "-linux" + ".yml" + post, |pre|;
    WordAt(s, i, "latest");
    WordAt(s, i + 6, "-linux");
    WordAt(s, i + 12, ".yml");
    assert YmlTail(s, i + 12, true);
    assert MatchesCiAt(s, i, "latest") && YmlTail(s, i + 6, false);
  }

  lemma LinuxArmYmlName(pre: string, post: string)
    ensures IsYmlName(pre + "latest" + "-linux" + "-arm64" + ".yml" + post)
  {
    var s, i := pre + "latest" + "-linux" + "-arm64" + ".yml" + post, |pre|;
    WordAt(s, i, "latest");
    WordAt(s, i + 6, "-linux");
    WordAt(s, i + 12, "-arm64");
    WordAt(s, i + 18, ".yml");
    assert YmlTail(s, i + 18, true);
    assert YmlTail(s, i + 12, true);
    assert MatchesCiAt(s, i, "latest") && YmlTail(s, i + 6, false);
  }

  /** The manifests electron-builder publishes are recognised, wherever they
      stand inside a longer name. */
  lemma YmlNamesAnywhere(pre: string, post: string)
    ensures IsYmlName(pre + "latest" + ".yml" + post)
    ensures IsYmlName(pre + "latest" + "-mac" + ".yml" + post)
    ensures IsYmlName(pre + "latest" + "-linux" + ".yml" + post)
    ensures IsYmlName(pre + "latest" + "-linux" + "-arm64" + ".yml" + post)
  {
    PlainYmlName(pre, post);
    MacYmlName(pre, post);
    LinuxYmlName(pre, post);
    LinuxArmYmlName(pre, post);
  }
}
