/**
 * Installing a builder plugin (cmd/skaffold/app/cmd/plugin/install.go):
 * choosing the manifest of the requested builder from the local list and the
 * download URI of the running operating system from that manifest. Reading
 * the manifest list, the download itself and the console messages are not
 * part of this model; the outcomes of the first two are inputs.
 *
 * The manifest loop keeps the address of the loop variable. Under the loop
 * semantics Go had before version 1.22 there is one such variable for the
 * whole loop, so once any manifest matches, the pointer ends up at the last
 * manifest of the list, whatever its name. `SelectManifestAsWritten` models
 * that; `SelectManifest` keeps the matching manifest, which is what the code
 * evidently means and what `RunInstall` uses.
 */
module PluginInstall {
  import opened Errors

  /** `schema.Platform`: the checksum is not used here. */
  datatype Platform = Platform(os: string, uri: string)

  /** `schema.PluginManifest`: the fields selection reads. */
  datatype PluginManifest = PluginManifest(name: string, platforms: seq<Platform>)

  /** The last manifest named `builder`, if any. */
  function LastMatch(ms: seq<PluginManifest>, builder: string): (r: Option<PluginManifest>)
    ensures r.None? <==> forall i :: 0 <= i < |ms| ==> ms[i].name != builder
    ensures r.Some? ==> r.value.name == builder
    ensures r.Some? ==> exists i :: (0 <= i < |ms| && ms[i] == r.value && forall j :: i < j < |ms| ==> ms[j].name != builder)
  {
    if |ms| == 0 then None
    else
      var n := |ms| - 1;
      if ms[n].name == builder then Some(ms[n])
      else
        var r := LastMatch(ms[..n], builder);
        assert forall i :: 0 <= i < n ==> ms[..n][i] == ms[i];
        r
  }

  /** Where the pointer taken in the loop ends up: at the last manifest, once any manifest matched. */
  function PointerTarget(ms: seq<PluginManifest>, builder: string): (r: Option<PluginManifest>)
    ensures r.None? <==> LastMatch(ms, builder).None?
    ensures r.Some? ==> r.value == ms[|ms| - 1]
  {
    if LastMatch(ms, builder).Some? then Some(ms[|ms| - 1]) else None
  }

  /** The manifest loop as written: the pointer is to the one loop variable, which holds the last manifest at the end. */
  method SelectManifestAsWritten(manifests: seq<PluginManifest>, builder: string) returns (manifest: Option<PluginManifest>)
    ensures manifest == PointerTarget(manifests, builder)
  {
    var m := PluginManifest("", []);
    var pointsAtM := false;
    var i := 0;
    while i < |manifests|
      invariant 0 <= i <= |manifests|
      invariant pointsAtM <==> LastMatch(manifests[..i], builder).Some?
      invariant i > 0 ==> m == manifests[i - 1]
    {
      m := manifests[i];
      if m.name == builder {
        pointsAtM := true;
      }
      assert manifests[..i + 1][..i] == manifests[..i];
      i := i + 1;
    }
    assert manifests[..i] == manifests;
    manifest := if pointsAtM then Some(m) else None;
  }

  /** The manifest loop as intended: the last manifest whose name is the builder's. */
  method SelectManifest(manifests: seq<PluginManifest>, builder: string) returns (manifest: Option<PluginManifest>)
    ensures manifest == LastMatch(manifests, builder)
  {
    manifest := None;
    var i := 0;
    while i < |manifests|
      invariant 0 <= i <= |manifests|
      invariant manifest == LastMatch(manifests[..i], builder)
    {
      if manifests[i].name == builder {
        manifest := Some(manifests[i]);
      }
      assert manifests[..i + 1][..i] == manifests[..i];
      i := i + 1;
    }
    assert manifests[..i] == manifests;
  }

  /**
   * A requested builder listed first and another builder listed after it:
   * as written the other builder's manifest is installed, as intended the
   * requested one's.
   */
  lemma PointerTargetsWrongManifest(a: PluginManifest, b: PluginManifest)
    requires a.name != b.name
    ensures PointerTarget([a, b], a.name) == Some(b) && PointerTarget([a, b], a.name).value.name != a.name
    ensures LastMatch([a, b], a.name) == Some(a)
  {
    assert [a, b][..1] == [a] && [a][..0] == [];
    assert LastMatch([a], a.name) == Some(a);
  }

  /** The URI of the last platform for the running OS; empty when there is none. */
  function LastURI(ps: seq<Platform>, goos: string): string
  {
    if |ps| == 0 then ""
    else if ps[|ps| - 1].os == goos then ps[|ps| - 1].uri
    else LastURI(ps[..|ps| - 1], goos)
  }

  /** Later platforms for the OS override earlier ones: the URI is that of the last platform for the OS, or empty when there is none. */
  lemma {:induction false} LastURIIsLastForOS(ps: seq<Platform>, goos: string)
    ensures (forall i :: 0 <= i < |ps| ==> ps[i].os != goos) ==> LastURI(ps, goos) == ""
    ensures forall i :: 0 <= i < |ps| && ps[i].os == goos && (forall j :: i < j < |ps| ==> ps[j].os != goos) ==>
      LastURI(ps, goos) == ps[i].uri
  {
    if forall i :: 0 <= i < |ps| ==> ps[i].os != goos {
      NoPlatformNoURI(ps, goos);
    }
    forall i | 0 <= i < |ps| && ps[i].os == goos && (forall j :: i < j < |ps| ==> ps[j].os != goos)
      ensures LastURI(ps, goos) == ps[i].uri
    {
      LastPlatformURI(ps, goos, i);
    }
  }

  /** With no platform for the OS the URI is empty. */
  lemma {:induction false} NoPlatformNoURI(ps: seq<Platform>, goos: string)
    requires forall i :: 0 <= i < |ps| ==> ps[i].os != goos
    ensures LastURI(ps, goos) == ""
  {
    if |ps| > 0 {
      var n := |ps| - 1;
      assert forall i :: 0 <= i < n ==> ps[..n][i] == ps[i];
      NoPlatformNoURI(ps[..n], goos);
    }
  }

  /** The URI is that of the last platform for the OS. */
  lemma {:induction false} LastPlatformURI(ps: seq<Platform>, goos: string, i: nat)
    requires i < |ps| && ps[i].os == goos && forall j :: i < j < |ps| ==> ps[j].os != goos
    ensures LastURI(ps, goos) == ps[i].uri
  {
    var n := |ps| - 1;
    if i < n {
      assert ps[..n][i] == ps[i];
      assert forall j :: i < j < n ==> ps[..n][j] == ps[j];
      LastPlatformURI(ps[..n], goos, i);
    }
  }

  /** The platform loop of `installManifest`. */
  method SelectURI(platforms: seq<Platform>, goos: string) returns (uri: string)
    ensures uri == LastURI(platforms, goos)
  {
    uri := "";
    var i := 0;
    while i < |platforms|
      invariant 0 <= i <= |platforms|
      invariant uri == LastURI(platforms[..i], goos)
    {
      if platforms[i].os == goos {
        uri := platforms[i].uri;
      }
      assert platforms[..i + 1][..i] == platforms[..i];
      i := i + 1;
    }
    assert platforms[..i] == platforms;
  }

  /** The download `downloadBinary` is asked for: the plugin name and the URI. */
  datatype Download = Download(name: string, uri: string)

  /** `installManifest`: download from the chosen URI, or fail when it is empty, before any download. */
  function InstallManifest(m: PluginManifest, goos: string, download: Download -> Option<string>): (r: (Option<string>, Option<Download>))
    ensures r.1.None? <==> LastURI(m.platforms, goos) == ""
    ensures r.1.None? ==> r.0 == Some(m.name + " has no supported version for " + goos)
    ensures r.1.Some? ==> r.1.value == Download(m.name, LastURI(m.platforms, goos)) && r.0 == download(r.1.value)
  {
    var uri := LastURI(m.platforms, goos);
    if uri == "" then (Some(m.name + " has no supported version for " + goos), None)
    else (download(Download(m.name, uri)), Some(Download(m.name, uri)))
  }

  /** The error for a builder no manifest is for, after the builder's name. */
  const NotABuilder := " is not a valid local skaffold builder, please try 'skaffold update' to update local repo of builders"

  /** `runInstall`, as intended: its error and the download it asks for. */
  function RunInstallOutcome(manifests: Result<seq<PluginManifest>>, builder: string, goos: string, download: Download -> Option<string>)
    : (r: (Option<string>, Option<Download>))
  {
    match manifests
    case Err(e) => (Some(Wrap("getting builder manifests", e)), None)
    case Ok(ms) =>
      match LastMatch(ms, builder)
      case None => (Some(builder + NotABuilder), None)
      case Some(m) => InstallManifest(m, goos, download)
  }

  /**
   * What an install does: nothing is downloaded when the list cannot be
   * read or no manifest is the builder's, and a download is always of the
   * requested builder, from a platform for the running OS.
   */
  lemma RunInstallDownloadsRequested(manifests: Result<seq<PluginManifest>>, builder: string, goos: string, download: Download -> Option<string>)
    ensures var r := RunInstallOutcome(manifests, builder, goos, download);
      && (manifests.Err? ==> r == (Some(Wrap("getting builder manifests", manifests.error)), None))
      && (manifests.Ok? && (forall i :: 0 <= i < |manifests.value| ==> manifests.value[i].name != builder) ==> r.1.None? && r.0.Some?)
      && (r.1.Some? ==> (r.1.value.name == builder && r.1.value.uri != "" &&
            exists i, k :: 0 <= i < |manifests.value| && manifests.value[i].name == builder &&
              0 <= k < |manifests.value[i].platforms| && manifests.value[i].platforms[k] == Platform(goos, r.1.value.uri)))
  {
    var r := RunInstallOutcome(manifests, builder, goos, download);
    if r.1.Some? {
      var m := LastMatch(manifests.value, builder).value;
      LastURIFromPlatform(m.platforms, goos);
    }
  }

  /** A non-empty URI chosen is that of a platform for the running OS. */
  lemma {:induction false} LastURIFromPlatform(ps: seq<Platform>, goos: string)
    ensures LastURI(ps, goos) != "" ==> exists k :: 0 <= k < |ps| && ps[k] == Platform(goos, LastURI(ps, goos))
  {
    if |ps| > 0 {
      var n := |ps| - 1;
      if ps[n].os != goos {
        LastURIFromPlatform(ps[..n], goos);
        if LastURI(ps, goos) != "" {
          var k :| 0 <= k < n && ps[..n][k] == Platform(goos, LastURI(ps, goos));
          assert ps[k] == ps[..n][k];
        }
      }
    }
  }

  /** `runInstall` as written, installing whichever manifest the pointer ends up at. */
  function RunInstallAsWrittenOutcome(manifests: Result<seq<PluginManifest>>, builder: string, goos: string, download: Download -> Option<string>)
    : (r: (Option<string>, Option<Download>))
    ensures manifests.Ok? && PointerTarget(manifests.value, builder).Some? ==>
      r == InstallManifest(manifests.value[|manifests.value| - 1], goos, download)
  {
    match manifests
    case Err(e) => (Some(Wrap("getting builder manifests", e)), None)
    case Ok(ms) =>
      match PointerTarget(ms, builder)
      case None => (Some(builder + NotABuilder), None)
      case Some(m) => InstallManifest(m, goos, download)
  }

  /** As written, asking for the first of two builders downloads the second, when it has a build for the running OS. */
  lemma AsWrittenInstallsOtherBuilder(a: PluginManifest, b: PluginManifest, goos: string, download: Download -> Option<string>)
    requires a.name != b.name && LastURI(b.platforms, goos) != ""
    ensures var r := RunInstallAsWrittenOutcome(Ok([a, b]), a.name, goos, download);
      r.1.Some? && r.1.value.name == b.name != a.name
  {
    PointerTargetsWrongManifest(a, b);
  }

  /** The command's work: list the manifests, choose the builder's, and install it. */
  method RunInstall(manifests: Result<seq<PluginManifest>>, builder: string, goos: string, download: Download -> Option<string>)
    returns (err: Option<string>, downloaded: Option<Download>)
    ensures (err, downloaded) == RunInstallOutcome(manifests, builder, goos, download)
  {
    if manifests.Err? {
      return Some(Wrap("getting builder manifests", manifests.error)), None;
    }
    var manifest := SelectManifest(manifests.value, builder);
    if manifest.None? {
      return Some(builder + NotABuilder), None;
    }
    var m := manifest.value;
    var uri := SelectURI(m.platforms, goos);
    if uri == "" {
      return Some(m.name + " has no supported version for " + goos), None;
    }
    downloaded := Some(Download(m.name, uri));
    err := download(downloaded.value);
  }
}
