/**
 * The docker plugin builder (build/docker/docker.go): the `docker build`
 * flags derived from a Docker artifact's build args, cache sources and
 * target; the command line of a CLI build; and the build step, which tags a
 * digest once (see TagMemo). The docker daemon and CLI, the YAML decoder and
 * the random initial tag are collaborators; their outcomes are inputs.
 */
module DockerBuild {
  import opened Errors
  import opened Strs
  import TagMemo

  /** `DockerArtifact`: a build arg with no value is `None`. */
  datatype DockerArtifact = DockerArtifact(dockerfilePath: string, buildArgs: map<string, Option<string>>, cacheFrom: seq<string>, target: string)

  /** The value given to `--build-arg` for key `k`: `k` alone, or `k=v`. */
  function ArgFlag(k: string, v: Option<string>): string
  {
    if v.None? then k else k + "=" + v.value
  }

  /** `--build-arg` and its value for each key, in the order given. */
  function KeyFlags(keys: seq<string>, args: map<string, Option<string>>): (r: seq<string>)
    requires forall i :: 0 <= i < |keys| ==> keys[i] in args
    ensures |r| == 2 * |keys|
  {
    if |keys| == 0 then []
    else
      var k := keys[|keys| - 1];
      KeyFlags(keys[..|keys| - 1], args) + ["--build-arg", ArgFlag(k, args[k])]
  }

  /** `--cache-from` and the source, for each source in order. */
  function CacheFlags(from: seq<string>): (r: seq<string>)
    ensures |r| == 2 * |from|
  {
    if |from| == 0 then []
    else CacheFlags(from[..|from| - 1]) + ["--cache-from", from[|from| - 1]]
  }

  /** The `--target` flag when a target is set. */
  function TargetFlags(target: string): seq<string>
  {
    if target != "" then ["--target", target] else []
  }

  /** The keys of the build args in ascending order. */
  function SortedKeys(a: DockerArtifact): (r: seq<string>)
    ensures forall i :: 0 <= i < |r| ==> r[i] in a.buildArgs
  {
    SortedElements(a.buildArgs.Keys)
  }

  /** `GetBuildArgs`: build args by sorted key, then cache sources, then the target. */
  function BuildArgFlags(a: DockerArtifact): (r: seq<string>)
    ensures |r| == 2 * |SortedKeys(a)| + 2 * |a.cacheFrom| + (if a.target != "" then 2 else 0)
  {
    KeyFlags(SortedKeys(a), a.buildArgs) + CacheFlags(a.cacheFrom) + TargetFlags(a.target)
  }

  /** Each key contributes a `--build-arg` pair, in the order of the keys. */
  lemma {:induction false} KeyFlagsLayout(keys: seq<string>, args: map<string, Option<string>>)
    requires forall i :: 0 <= i < |keys| ==> keys[i] in args
    ensures forall i :: 0 <= i < |keys| ==>
      KeyFlags(keys, args)[2 * i] == "--build-arg" && KeyFlags(keys, args)[2 * i + 1] == ArgFlag(keys[i], args[keys[i]])
  {
    if |keys| > 0 {
      KeyFlagsLayout(keys[..|keys| - 1], args);
    }
  }

  /** Each cache source contributes a `--cache-from` pair, in order. */
  lemma {:induction false} CacheFlagsLayout(from: seq<string>)
    ensures forall j :: 0 <= j < |from| ==> CacheFlags(from)[2 * j] == "--cache-from" && CacheFlags(from)[2 * j + 1] == from[j]
  {
    if |from| > 0 {
      CacheFlagsLayout(from[..|from| - 1]);
    }
  }

  /** The flags open with a `--build-arg` pair per key in key order: the key alone when it has no value, `k=v` otherwise. */
  lemma BuildArgPairs(a: DockerArtifact)
    ensures var r, keys := BuildArgFlags(a), SortedKeys(a);
      forall i :: 0 <= i < |keys| ==>
        r[2 * i] == "--build-arg" && r[2 * i + 1] == ArgFlag(keys[i], a.buildArgs[keys[i]])
  {
    var keys := SortedKeys(a);
    var kf, cf, tf := KeyFlags(keys, a.buildArgs), CacheFlags(a.cacheFrom), TargetFlags(a.target);
    assert BuildArgFlags(a) == kf + (cf + tf);
    KeyPartAt(kf, cf + tf, keys, a.buildArgs);
  }

  /** Then a `--cache-from` pair per cache source, in order. */
  lemma CacheFromPairs(a: DockerArtifact)
    ensures var r, n := BuildArgFlags(a), |SortedKeys(a)|;
      forall j :: 0 <= j < |a.cacheFrom| ==>
        r[2 * n + 2 * j] == "--cache-from" && r[2 * n + 2 * j + 1] == a.cacheFrom[j]
  {
    var keys := SortedKeys(a);
    var kf, cf, tf := KeyFlags(keys, a.buildArgs), CacheFlags(a.cacheFrom), TargetFlags(a.target);
    assert BuildArgFlags(a) == kf + cf + tf;
    CachePartAt(kf, cf, tf, a.cacheFrom, |keys|);
  }

  /** And `--target` with the target last, when one is set. */
  lemma TargetLast(a: DockerArtifact)
    ensures a.target != "" ==> BuildArgFlags(a)[|BuildArgFlags(a)| - 2..] == ["--target", a.target]
  {
    var keys := SortedKeys(a);
    FlagsIndex(KeyFlags(keys, a.buildArgs), CacheFlags(a.cacheFrom), TargetFlags(a.target));
  }

  /** The `--build-arg` pairs at the front of the flags. */
  lemma KeyPartAt(kf: seq<string>, rest: seq<string>, keys: seq<string>, args: map<string, Option<string>>)
    requires forall i :: 0 <= i < |keys| ==> keys[i] in args
    requires kf == KeyFlags(keys, args)
    ensures forall i :: 0 <= i < |keys| ==>
      (kf + rest)[2 * i] == "--build-arg" && (kf + rest)[2 * i + 1] == ArgFlag(keys[i], args[keys[i]])
  {
    KeyFlagsLayout(keys, args);
  }

  /** The `--cache-from` pairs after the `n` `--build-arg` pairs. */
  lemma CachePartAt(kf: seq<string>, cf: seq<string>, tf: seq<string>, from: seq<string>, n: nat)
    requires cf == CacheFlags(from) && |kf| == 2 * n
    ensures forall j :: 0 <= j < |from| ==>
      (kf + cf + tf)[2 * n + 2 * j] == "--cache-from" && (kf + cf + tf)[2 * n + 2 * j + 1] == from[j]
  {
    CacheFlagsLayout(from);
    var r := kf + cf + tf;
    assert |r| >= 2 * n + 2 * |from|;
    forall j | 0 <= j < |from|
      ensures r[2 * n + 2 * j] == "--cache-from" && r[2 * n + 2 * j + 1] == from[j]
    {
      assert r[2 * n + 2 * j] == cf[2 * j];
      assert r[2 * n + 2 * j + 1] == cf[2 * j + 1];
    }
  }

  /** Where each part of a three-part flag list sits in it. */
  lemma FlagsIndex(kf: seq<string>, cf: seq<string>, tf: seq<string>)
    ensures forall i :: 0 <= i < |kf| ==> (kf + cf + tf)[i] == kf[i]
    ensures forall j :: 0 <= j < |cf| ==> (kf + cf + tf)[|kf| + j] == cf[j]
    ensures (kf + cf + tf)[|kf + cf + tf| - |tf|..] == tf
  {
  }

  /** A key with no value is passed bare, one with a value as `k=v`. */
  lemma ArgFlagForms(k: string, v: string)
    ensures ArgFlag(k, None) == k
    ensures ArgFlag(k, Some(v)) == k + "=" + v && ArgFlag(k, Some(v)) != k
  {
    assert |ArgFlag(k, Some(v))| > |k|;
  }

  /** `GetBuildArgs`, accumulating the flags in a slice. */
  method GetBuildArgs(a: DockerArtifact) returns (args: seq<string>)
    ensures args == BuildArgFlags(a)
  {
    var keys := SortedKeys(a);
    var byKey := AppendKeyFlags(keys, a.buildArgs);
    var from := AppendCacheFlags(a.cacheFrom);
    args := byKey + from;
    if a.target != "" {
      args := args + ["--target", a.target];
    }
  }

  /** The loop over the sorted keys of `GetBuildArgs`. */
  method AppendKeyFlags(keys: seq<string>, m: map<string, Option<string>>) returns (args: seq<string>)
    requires forall i :: 0 <= i < |keys| ==> keys[i] in m
    ensures args == KeyFlags(keys, m)
  {
    args := [];
    var i := 0;
    while i < |keys|
      invariant 0 <= i <= |keys|
      invariant args == KeyFlags(keys[..i], m)
    {
      assert keys[..i + 1][..i] == keys[..i];
      args := args + ["--build-arg", ArgFlag(keys[i], m[keys[i]])];
      i := i + 1;
    }
    assert keys[..i] == keys;
  }

  /** The loop over the cache sources of `GetBuildArgs`. */
  method AppendCacheFlags(from: seq<string>) returns (args: seq<string>)
    ensures args == CacheFlags(from)
  {
    args := [];
    var j := 0;
    while j < |from|
      invariant 0 <= j <= |from|
      invariant args == CacheFlags(from[..j])
    {
      assert from[..j + 1][..j] == from[..j];
      args := args + ["--cache-from", from[j]];
      j := j + 1;
    }
    assert from[..j] == from;
  }

  /** The arguments of `docker build` when the CLI (or BuildKit) builds the image. */
  function CLIArgs(workspace: string, dockerfilePath: string, initialTag: string, a: DockerArtifact): (r: seq<string>)
    ensures |r| >= 6 && r[..6] == ["build", workspace, "--file", dockerfilePath, "-t", initialTag] && r[6..] == BuildArgFlags(a)
  {
    ["build", workspace, "--file", dockerfilePath, "-t", initialTag] + BuildArgFlags(a)
  }

  /** What the collaborators of `buildLocal` answer. */
  datatype LocalOutcomes = LocalOutcomes(
    /** the artifact's plugin contents, decoded */
    properties: Result<DockerArtifact>,
    /** `docker.NormalizeDockerfilePath(workspace, path)` */
    normalize: (string, string) -> Result<string>,
    /** running `docker` with the given arguments */
    run: seq<string> -> Option<string>,
    /** `LocalDocker.ImageID(initialTag)` */
    imageID: string -> Result<string>,
    /** `LocalDocker.Build(workspace, artifact, initialTag)` through the daemon */
    daemonBuild: (string, DockerArtifact, string) -> Result<string>)

  /**
   * `buildLocal`: the digest of the built image and the `docker` command
   * line run, if any. With the CLI or BuildKit the command is run and the
   * image ID looked up; otherwise the daemon builds it.
   */
  function BuildLocal(useCLI: bool, workspace: string, initialTag: string, o: LocalOutcomes): (r: (Result<string>, Option<seq<string>>))
    ensures r.1.Some? ==> useCLI && o.properties.Ok? && |r.1.value| >= 6 && r.1.value[6..] == BuildArgFlags(o.properties.value)
    ensures r.0.Ok? && useCLI ==> r.1.Some?
    ensures !useCLI && o.properties.Ok? ==> r.0 == o.daemonBuild(workspace, o.properties.value, initialTag)
  {
    match o.properties
    case Err(e) => (Err(e), None)
    case Ok(p) =>
      if useCLI then
        match o.normalize(workspace, p.dockerfilePath)
        case Err(e) => (Err(Wrap("normalizing dockerfile path", e)), None)
        case Ok(path) =>
          var args := CLIArgs(workspace, path, initialTag, p);
          match o.run(args)
          case Some(e) => (Err(Wrap("running build", e)), Some(args))
          case None => (o.imageID(initialTag), Some(args))
      else (o.daemonBuild(workspace, p, initialTag), None)
  }

  /** `Build`: only the local environment is supported. */
  function BuildEnvironment(envName: string): (r: Option<string>)
    ensures r.None? <==> envName == "local"
    ensures r.Some? ==> r.value == envName + " is not a supported environment for builder docker"
  {
    TagMemo.EnvironmentError(envName, "docker")
  }

  /** The docker builder, over a local builder holding the `AlreadyTagged` map. */
  class Builder {
    const builder: TagMemo.LocalBuilder

    constructor (builder: TagMemo.LocalBuilder)
      ensures this.builder == builder
    {
      this.builder := builder;
    }

    /** `Labels`: the builder label. */
    function Labels(): (r: map<string, string>)
      ensures r.Keys == {"skaffold-builder"} && r["skaffold-builder"] == "docker"
    {
      map["skaffold-builder" := "docker"]
    }

    /** `buildArtifactLocal`: build, then reuse or record the tag of the digest. */
    method BuildArtifactLocal(a: TagMemo.Artifact, useCLI: bool, initialTag: string, lo: LocalOutcomes, o: TagMemo.Outcomes)
      returns (tag: Result<string>, calls: seq<TagMemo.Call>)
      modifies builder`alreadyTagged
      ensures var s := TagMemo.TagStep(old(builder.alreadyTagged), builder.pushImages, a, BuildLocal(useCLI, a.workspace, initialTag, lo).0, o);
        tag == s.tag && builder.alreadyTagged == s.alreadyTagged && calls == s.calls
    {
      var digest := BuildLocal(useCLI, a.workspace, initialTag, lo).0;
      tag, calls := builder.Record(a, digest, o);
    }
  }
}
