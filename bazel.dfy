/**
 * The bazel plugin builder (build/bazel/bazel.go): how a bazel target label
 * becomes the path of the image tarball under bazel-bin and the name the
 * image is loaded under, the `bazel build` command line, and the build step,
 * which tags a digest once (see TagMemo). bazel, the docker daemon, the YAML
 * codec and the file system are collaborators; their outcomes are inputs.
 * The path separator is `/`.
 */
module BazelBuild {
  import opened Errors
  import opened Strs
  import TagMemo

  /** `BazelArtifact`. */
  datatype BazelArtifact = BazelArtifact(buildTarget: string, buildArgs: seq<string>)

  /** `trimTarget`: drop one leading `//`, then one leading `:`. */
  function TrimTarget(target: string): (r: string)
    ensures exists p, q :: (p == "" || p == "//") && (q == "" || q == ":") && target == p + q + r
    ensures !HasPrefix(target, "//") && !HasPrefix(target, ":") ==> r == target
  {
    var t := TrimPrefix(target, "//");
    var r := TrimPrefix(t, ":");
    var p := if HasPrefix(target, "//") then "//" else "";
    var q := if HasPrefix(t, ":") then ":" else "";
    assert target == p + t;
    assert t == q + r;
    assert target == p + q + r;
    r
  }

  /** `strings.Replace(s, string(old), string(new), 1)` for single characters. */
  function ReplaceFirst(s: string, from: char, to: char): (r: string)
    ensures |r| == |s|
    ensures from !in s ==> r == s
    ensures from in s ==> IndexOf(s, from).Some? && r == s[..IndexOf(s, from).value] + [to] + s[IndexOf(s, from).value + 1..]
  {
    match IndexOf(s, from)
    case None => s
    case Some(i) => s[..i] + [to] + s[i + 1..]
  }

  /** `buildTarPath`: the trimmed target with its first `:` turned into a path separator. */
  function BuildTarPath(target: string): (r: string)
  {
    ReplaceFirst(TrimTarget(target), ':', '/')
  }

  /** Only the first remaining colon becomes a separator: any later one stays. */
  lemma BuildTarPathReplacesFirstColon(target: string)
    ensures var t := TrimTarget(target);
      && (':' !in t ==> BuildTarPath(target) == t)
      && (':' in t ==>
            exists i :: 0 <= i < |t| && t[i] == ':' && ':' !in t[..i] && BuildTarPath(target) == t[..i] + "/" + t[i + 1..])
  {
    var t := TrimTarget(target);
    var r := BuildTarPath(target);
    assert r == ReplaceFirst(t, ':', '/');
    if ':' in t {
      var i := IndexOf(t, ':').value;
      assert r == t[..i] + "/" + t[i + 1..];
    }
  }

  /** The image tag of a bazel target: the trimmed target without a further leading `:` or a trailing `.tar`. */
  function ImageName(target: string): string
  {
    TrimSuffix(TrimPrefix(TrimTarget(target), ":"), ".tar")
  }

  /** `buildImageTag`: `bazel/<name>` when the name still has a colon, `bazel:<name>` otherwise. */
  function BuildImageTag(target: string): (r: string)
  {
    var name := ImageName(target);
    if ':' in name then "bazel/" + name else "bazel:" + name
  }

  /**
   * The tag is `bazel/` or `bazel:` followed by the image name, and the
   * separator is `/` exactly when the name contains a colon.
   */
  lemma BuildImageTagShape(target: string)
    ensures var name := ImageName(target); var r := BuildImageTag(target);
      && |r| == 6 + |name| && r[..5] == "bazel" && r[6..] == name
      && (r[5] == '/' <==> ':' in name) && (r[5] == ':' <==> ':' !in name)
  {
  }

  /** A root target `//:name` trims to `name`. */
  lemma TrimRootTarget(name: string)
    requires |name| > 0 && name[0] != ':'
    ensures TrimTarget("//:" + name) == name
  {
    var s := "//:" + name;
    assert s[..2] == "//" && s[2..] == ":" + name;
    assert (":" + name)[..1] == ":" && (":" + name)[1..] == name;
  }

  /** A package target `//pkg:name` trims to `pkg:name`. */
  lemma TrimPackageTarget(lbl: string)
    requires |lbl| > 0 && lbl[0] != ':'
    ensures TrimTarget("//" + lbl) == lbl
  {
    var s := "//" + lbl;
    assert s[..2] == "//" && s[2..] == lbl;
    assert lbl[..1] != ":" by { assert lbl[..1][0] == lbl[0]; }
  }

  /** A trimmed target `n.tar`, with `n` not starting with a colon, names the image `n`. */
  lemma ImageNameOfTarball(target: string, n: string)
    requires TrimTarget(target) == n + ".tar" && (|n| == 0 || n[0] != ':')
    ensures ImageName(target) == n
  {
    var t := n + ".tar";
    assert t[..1] != ":" by { assert t[..1][0] == t[0]; }
    assert t[|t| - 4..] == ".tar" && t[..|t| - 4] == n;
  }

  /** An image name without a colon is tagged `bazel:<name>`. */
  lemma TagOfPlainName(target: string, n: string)
    requires ImageName(target) == n && ':' !in n
    ensures BuildImageTag(target) == "bazel:" + n
  {
  }

  /** An image name with a colon is tagged `bazel/<name>`. */
  lemma TagOfQualifiedName(target: string, n: string, i: nat)
    requires ImageName(target) == n && i < |n| && n[i] == ':'
    ensures BuildImageTag(target) == "bazel/" + n
  {
  }

  /** A root target `//:name.tar` is found at `name.tar` and loads as `bazel:name`. */
  lemma RootTarget(name: string)
    requires |name| > 0 && name[0] != ':' && ':' !in name
    ensures BuildTarPath("//:" + name + ".tar") == name + ".tar"
    ensures BuildImageTag("//:" + name + ".tar") == "bazel:" + name
  {
    var target := "//:" + name + ".tar";
    assert target == "//:" + (name + ".tar");
    TrimRootTarget(name + ".tar");
    assert ':' !in name + ".tar";
    ImageNameOfTarball(target, name);
    TagOfPlainName(target, name);
  }

  /** A package target `//pkg:name.tar` is found at `pkg/name.tar`. */
  lemma PackageTargetPath(pkg: string, name: string)
    requires |pkg| > 0 && pkg[0] != ':' && ':' !in pkg
    ensures BuildTarPath("//" + pkg + ":" + name + ".tar") == pkg + "/" + name + ".tar"
  {
    var t := pkg + ":" + name + ".tar";
    assert "//" + pkg + ":" + name + ".tar" == "//" + t;
    TrimPackageTarget(t);
    PackageTarPath(pkg, name);
  }

  /** A package target `//pkg:name.tar` loads as `bazel/pkg:name`. */
  lemma PackageTargetTag(pkg: string, name: string)
    requires |pkg| > 0 && pkg[0] != ':'
    ensures BuildImageTag("//" + pkg + ":" + name + ".tar") == "bazel/" + pkg + ":" + name
  {
    var target := "//" + pkg + ":" + name + ".tar";
    var n := pkg + ":" + name;
    assert target == "//" + (n + ".tar");
    TrimPackageTarget(n + ".tar");
    ImageNameOfTarball(target, n);
    assert n[|pkg|] == ':';
    TagOfQualifiedName(target, n, |pkg|);
  }

  /** In `pkg:name.tar` the colon after the package becomes a separator. */
  lemma PackageTarPath(pkg: string, name: string)
    requires ':' !in pkg
    ensures ReplaceFirst(pkg + ":" + name + ".tar", ':', '/') == pkg + "/" + name + ".tar"
  {
    var t := pkg + ":" + name + ".tar";
    assert t[..|pkg|] == pkg && t[|pkg|] == ':';
    assert IndexOf(t, ':') == Some(|pkg|);
    assert t[..|pkg|] + ['/'] + t[|pkg| + 1..] == pkg + "/" + name + ".tar";
  }

  /** The arguments of `bazel`: `build`, the artifact's args, then its target. */
  function BazelArgs(p: BazelArtifact): (r: seq<string>)
    ensures |r| == |p.buildArgs| + 2 && r[0] == "build" && r[1..|r| - 1] == p.buildArgs && r[|r| - 1] == p.buildTarget
  {
    ["build"] + p.buildArgs + [p.buildTarget]
  }

  /** What the collaborators of `buildLocal` answer. */
  datatype LocalOutcomes = LocalOutcomes(
    /** the artifact's plugin properties, re-encoded and decoded */
    properties: Result<BazelArtifact>,
    /** running `bazel` with the given arguments */
    run: seq<string> -> Option<string>,
    /** `bazel info bazel-bin`, trimmed */
    bazelBin: Result<string>,
    /** opening a file */
    open: string -> Option<string>,
    /** `LocalDocker.Load(tarball path, ref)`: the image ID */
    load: (string, string) -> Result<string>)

  /**
   * `filepath.Join` of a directory and a relative path, without Go's final
   * `Clean`: a trailing `/` on `dir` and `.` or `..` segments are kept as they
   * are, where Go would collapse them.
   */
  function Join(dir: string, path: string): string
  {
    if dir == "" then path else dir + "/" + path
  }

  /**
   * `buildLocal`: run the build, find the tarball under bazel-bin and load
   * it into the daemon under the image tag; the digest, or the first failure,
   * wrapped.
   */
  function BuildLocal(o: LocalOutcomes): (r: Result<string>)
    ensures r.Ok? ==> (o.properties.Ok? && o.bazelBin.Ok? &&
      r == o.load(Join(o.bazelBin.value, BuildTarPath(o.properties.value.buildTarget)), BuildImageTag(o.properties.value.buildTarget)))
  {
    match o.properties
    case Err(e) => Err(e)
    case Ok(p) =>
      match o.run(BazelArgs(p))
      case Some(e) => Err(Wrap("running command", e))
      case None =>
        match o.bazelBin
        case Err(e) => Err(Wrap("getting path of bazel-bin", e))
        case Ok(bin) =>
          var tarball := Join(bin, BuildTarPath(p.buildTarget));
          match o.open(tarball)
          case Some(e) => Err(Wrap("opening image tarball", e))
          case None =>
            match o.load(tarball, BuildImageTag(p.buildTarget))
            case Err(e) => Err(Wrap("loading image into docker daemon", e))
            case Ok(id) => Ok(id)
  }

  /** `Build`: only the local environment is supported. */
  function BuildEnvironment(envName: string): (r: Option<string>)
    ensures r.None? <==> envName == "local"
    ensures r.Some? ==> r.value == envName + " is not a supported environment for builder bazel"
  {
    TagMemo.EnvironmentError(envName, "bazel")
  }

  /** The bazel builder, over a local builder holding the `AlreadyTagged` map. */
  class Builder {
    const builder: TagMemo.LocalBuilder

    constructor (builder: TagMemo.LocalBuilder)
      ensures this.builder == builder
    {
      this.builder := builder;
    }

    /** `Labels`: the builder label. */
    function Labels(): (r: map<string, string>)
      ensures r.Keys == {"skaffold-builder"} && r["skaffold-builder"] == "bazel"
    {
      map["skaffold-builder" := "bazel"]
    }

    /** `buildArtifact`: build, then reuse or record the tag of the digest. */
    method BuildArtifact(a: TagMemo.Artifact, lo: LocalOutcomes, o: TagMemo.Outcomes)
      returns (tag: Result<string>, calls: seq<TagMemo.Call>)
      modifies builder`alreadyTagged
      ensures var s := TagMemo.TagStep(old(builder.alreadyTagged), builder.pushImages, a, BuildLocal(lo), o);
        tag == s.tag && builder.alreadyTagged == s.alreadyTagged && calls == s.calls
    {
      tag, calls := builder.Record(a, BuildLocal(lo), o);
    }
  }
}
