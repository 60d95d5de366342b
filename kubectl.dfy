/**
 * The kubectl deployer (deploy/kubectl.go): which manifest files a
 * configuration names, how local and URL manifests are gathered, how a
 * remote manifest name is split into namespace and object, and the deploy
 * sequence with the one-time capture of the original images. kubectl, the
 * glob expander, the manifest rewriting steps and the image extraction are
 * collaborators: their outcomes are inputs.
 */
module KubectlDeploy {
  import opened Errors
  import opened Strs
  import opened Artifacts
  import Seqs

  /** The text of one manifest. */
  type Manifest = string

  /** What the deployer's collaborators answer. */
  datatype Env = Env(
    /** `util.IsURL` */
    isURL: string -> bool,
    /** `util.ExpandPathsGlob` in the working directory */
    glob: seq<string> -> Result<seq<string>>,
    /** `util.IsSupportedKubernetesFormat` */
    supported: string -> bool,
    /** `kubectl.ReadManifests` */
    read: seq<string> -> Result<seq<Manifest>>,
    /** `kubectl.RunInNamespace(ctx, nil, out, "get", namespace, args...)`: what it writes, or its error */
    get: (string, seq<string>) -> Result<Manifest>,
    /** `ManifestList.GetImages` */
    getImages: seq<Manifest> -> Result<seq<Built>>,
    /** `ManifestList.ReplaceImages(builds, defaultRepo)` */
    replaceImages: (seq<Manifest>, seq<Built>) -> Result<seq<Manifest>>,
    /** `ManifestList.SetLabels` with the merged labels */
    setLabels: seq<Manifest> -> Result<seq<Manifest>>,
    /** `manifestTransforms`, in order */
    transforms: seq<(seq<Manifest>, seq<Built>) -> Result<seq<Manifest>>>,
    /** `kubectl.Apply`: its error, if any */
    apply: seq<Manifest> -> Option<string>)

  // ---------------------------------------------------------------------------
  // Manifest files

  /** The configured manifests that are not URLs, in order: what the glob expander is given. */
  function NonURLs(manifests: seq<string>, env: Env): seq<string>
  {
    Seqs.Filter(manifests, m => !env.isURL(m))
  }

  /** The configured manifests that are URLs, in order. */
  function URLs(manifests: seq<string>, env: Env): seq<string>
  {
    Seqs.Filter(manifests, env.isURL)
  }

  /** Expanded files kept: the supported formats, and any file listed literally. */
  function Kept(list: seq<string>, manifests: seq<string>, env: Env): seq<string>
  {
    Seqs.Filter(list, f => env.supported(f) || f in manifests)
  }

  /** `manifestFiles`: the non-URL manifests expanded by the glob, keeping only deployable files. */
  function ManifestFileList(manifests: seq<string>, env: Env): Result<seq<string>>
  {
    match env.glob(NonURLs(manifests, env))
    case Err(e) => Err(Wrap("expanding kubectl manifest paths", e))
    case Ok(list) => Ok(Kept(list, manifests, env))
  }

  /** The glob expander is given exactly the non-URL manifests: no URL, and every non-URL. */
  lemma GlobSeesNoURL(manifests: seq<string>, env: Env)
    ensures forall m :: m in NonURLs(manifests, env) <==> m in manifests && !env.isURL(m)
  {
    var r := NonURLs(manifests, env);
    forall m ensures m in r <==> m in manifests && !env.isURL(m) {
      if m in r {
        var i :| 0 <= i < |r| && r[i] == m;
      }
      if m in manifests && !env.isURL(m) {
        var i :| 0 <= i < |manifests| && manifests[i] == m;
      }
    }
  }

  /**
   * A file survives exactly when the glob produced it and it is in a
   * supported format or was listed literally; a glob failure is wrapped.
   */
  lemma ManifestFileListMembers(manifests: seq<string>, env: Env)
    ensures env.glob(NonURLs(manifests, env)).Err? ==>
      ManifestFileList(manifests, env) == Err(Wrap("expanding kubectl manifest paths", env.glob(NonURLs(manifests, env)).error))
    ensures env.glob(NonURLs(manifests, env)).Ok? ==> (ManifestFileList(manifests, env).Ok? &&
      forall f :: f in ManifestFileList(manifests, env).value <==>
        f in env.glob(NonURLs(manifests, env)).value && (env.supported(f) || f in manifests))
  {
    if env.glob(NonURLs(manifests, env)).Ok? {
      var list := env.glob(NonURLs(manifests, env)).value;
      var r := Kept(list, manifests, env);
      forall f ensures f in r <==> f in list && (env.supported(f) || f in manifests) {
        if f in r {
          var i :| 0 <= i < |r| && r[i] == f;
        }
        if f in list && (env.supported(f) || f in manifests) {
          var i :| 0 <= i < |list| && list[i] == f;
        }
      }
    }
  }

  /**
   * `readManifests`: the manifest files, then the URL manifests in
   * configured order; kubectl reads them all, unless there are none.
   */
  function ReadManifestList(manifests: seq<string>, env: Env): Result<seq<Manifest>>
  {
    match ManifestFileList(manifests, env)
    case Err(e) => Err(Wrap("listing manifests", e))
    case Ok(files) =>
      var all := files + URLs(manifests, env);
      if |all| == 0 then Ok([]) else env.read(all)
  }

  /**
   * kubectl is handed the file manifests followed by the URL manifests; when
   * that list is empty the result is empty whatever kubectl would answer.
   */
  lemma ReadManifestListOrder(manifests: seq<string>, env: Env, read': seq<string> -> Result<seq<Manifest>>)
    requires ManifestFileList(manifests, env).Ok?
    ensures var all := ManifestFileList(manifests, env).value + URLs(manifests, env);
      && (|all| > 0 ==> ReadManifestList(manifests, env) == env.read(all))
      && (|all| == 0 ==> ReadManifestList(manifests, env) == Ok([]) && ReadManifestList(manifests, env.(read := read')) == Ok([]))
      && |all| >= |URLs(manifests, env)| && all[|all| - |URLs(manifests, env)|..] == URLs(manifests, env)
  {
    assert ManifestFileList(manifests, env.(read := read')) == ManifestFileList(manifests, env);
    assert URLs(manifests, env.(read := read')) == URLs(manifests, env);
  }

  // ---------------------------------------------------------------------------
  // Remote manifests

  /** The namespace and the `kubectl get` arguments for a remote manifest `ns:name` (or `name`). */
  function RemoteTarget(name: string): (r: (string, seq<string>))
    ensures |r.1| == 3 && r.1[1..] == ["-o", "yaml"]
  {
    var parts := Split(name, ':');
    if |parts| > 1 then (parts[0], [parts[1], "-o", "yaml"]) else ("", [name, "-o", "yaml"])
  }

  /** Without a colon the namespace is empty and the whole name is fetched. */
  lemma RemoteTargetWithoutNamespace(name: string)
    requires ':' !in name
    ensures RemoteTarget(name) == ("", [name, "-o", "yaml"])
  {
    SplitWithoutSeparator(name, ':');
  }

  /**
   * `ns:name`, possibly followed by more `:`-separated text: the namespace is
   * the text before the first colon and the object the text up to the second.
   */
  lemma RemoteTargetWithNamespace(ns: string, name: string, rest: string)
    requires ':' !in ns && ':' !in name
    requires rest == "" || rest[0] == ':'
    ensures RemoteTarget(ns + ":" + name + rest) == (ns, [name, "-o", "yaml"])
  {
    var s := ns + ":" + name + rest;
    assert s[..|ns|] == ns && s[|ns|] == ':';
    SplitAtFirst(s, ':', |ns|);
    var t := name + rest;
    assert s[|ns| + 1..] == t;
    if rest == "" {
      assert t == name;
      SplitWithoutSeparator(name, ':');
    } else {
      assert t[..|name|] == name && t[|name|] == ':';
      SplitAtFirst(t, ':', |name|);
    }
  }

  /** `readRemoteManifest`: what `kubectl get` prints for the object, or its wrapped error. */
  function ReadRemoteManifest(name: string, env: Env): (r: Result<Manifest>)
    ensures r.Err? <==> env.get(RemoteTarget(name).0, RemoteTarget(name).1).Err?
  {
    var (ns, args) := RemoteTarget(name);
    match env.get(ns, args)
    case Err(e) => Err(Wrap("getting manifest", e))
    case Ok(m) => Ok(m)
  }

  /** `acc` followed by the result of a later step, or that step's error. */
  function Prepend(acc: seq<Manifest>, r: Result<seq<Manifest>>): Result<seq<Manifest>>
  {
    match r
    case Err(e) => Err(e)
    case Ok(ms) => Ok(acc + ms)
  }

  lemma PrependPrepend(acc: seq<Manifest>, m: Manifest, r: Result<seq<Manifest>>)
    ensures Prepend(acc, Prepend([m], r)) == Prepend(acc + [m], r)
  {
    if r.Ok? {
      assert acc + ([m] + r.value) == acc + [m] + r.value;
    }
  }

  /** The remote manifests read one after another, stopping at the first failure. */
  function ReadRemotes(names: seq<string>, env: Env): (r: Result<seq<Manifest>>)
    ensures r.Ok? ==> |r.value| == |names|
    ensures r.Ok? ==> forall i :: 0 <= i < |names| ==> ReadRemoteManifest(names[i], env) == Ok(r.value[i])
    ensures r.Err? <==> exists i :: 0 <= i < |names| && ReadRemoteManifest(names[i], env).Err?
  {
    if |names| == 0 then Ok([])
    else
      match ReadRemoteManifest(names[0], env)
      case Err(e) => Err(Wrap("get remote manifests", e))
      case Ok(m) =>
        var rest := ReadRemotes(names[1..], env);
        assert forall i :: 1 <= i < |names| ==> names[i] == names[1..][i - 1];
        Prepend([m], rest)
  }

  // ---------------------------------------------------------------------------
  // Deploy

  /** The manifest transforms applied in order, stopping at the first failure. */
  function Transform(ms: seq<Manifest>, builds: seq<Built>, ts: seq<(seq<Manifest>, seq<Built>) -> Result<seq<Manifest>>>): Result<seq<Manifest>>
    decreases |ts|
  {
    if |ts| == 0 then Ok(ms)
    else
      match ts[0](ms, builds)
      case Err(e) => Err(Wrap("unable to transform manifests", e))
      case Ok(ms') => Transform(ms', builds, ts[1..])
  }

  /** The local and URL manifests followed by the remote ones, or the first error, wrapped. */
  function Gather(manifests: seq<string>, remotes: seq<string>, env: Env): Result<seq<Manifest>>
  {
    match ReadManifestList(manifests, env)
    case Err(e) => Err(Wrap("reading manifests", e))
    case Ok(local) => Prepend(local, ReadRemotes(remotes, env))
  }

  /** The rewriting before apply: image replacement, labels, then every transform. */
  function Prepare(ms: seq<Manifest>, builds: seq<Built>, env: Env): Result<seq<Manifest>>
  {
    match env.replaceImages(ms, builds)
    case Err(e) => Err(Wrap("replacing images in manifests", e))
    case Ok(replaced) =>
      match env.setLabels(replaced)
      case Err(e) => Err(Wrap("setting labels in manifests", e))
      case Ok(labelled) => Transform(labelled, builds, env.transforms)
  }

  /** What a deploy returns, the deployer's `originalImages` afterwards, and what was applied, if anything. */
  datatype Outcome = Outcome(err: Option<string>, originalImages: seq<Built>, applied: Option<seq<Manifest>>)

  /** `KubectlDeployer.Deploy`, from the images captured so far. */
  function DeployOutcome(original: seq<Built>, manifests: seq<string>, remotes: seq<string>, builds: seq<Built>, env: Env): Outcome
  {
    match Gather(manifests, remotes, env)
    case Err(e) => Outcome(Some(e), original, None)
    case Ok(ms) =>
      var captured := if |original| == 0 then env.getImages(ms) else Ok(original);
      match captured
      case Err(e) => Outcome(Some(Wrap("get images from manifests", e)), [], None)
      case Ok(images) =>
        if |ms| == 0 then Outcome(None, images, None)
        else
          match Prepare(ms, builds, env)
          case Err(e) => Outcome(Some(e), images, None)
          case Ok(ready) =>
            match env.apply(ready)
            case Some(e) => Outcome(Some(Wrap("kubectl error", e)), images, Some(ready))
            case None => Outcome(None, images, Some(ready))
  }

  /**
   * The original images are captured from the manifests only while none are
   * recorded: once recorded they never change.
   */
  lemma OriginalImagesCapturedOnce(original: seq<Built>, manifests: seq<string>, remotes: seq<string>, builds: seq<Built>, env: Env)
    ensures |original| > 0 ==> DeployOutcome(original, manifests, remotes, builds, env).originalImages == original
    ensures |original| == 0 && Gather(manifests, remotes, env).Ok? && env.getImages(Gather(manifests, remotes, env).value).Ok? ==>
      DeployOutcome(original, manifests, remotes, builds, env).originalImages == env.getImages(Gather(manifests, remotes, env).value).value
  {
  }

  /** With no manifest at all, nothing is applied and no error is returned. */
  lemma NoManifestsNoApply(original: seq<Built>, manifests: seq<string>, remotes: seq<string>, builds: seq<Built>, env: Env)
    requires Gather(manifests, remotes, env) == Ok([])
    requires |original| == 0 ==> env.getImages([]).Ok?
    ensures DeployOutcome(original, manifests, remotes, builds, env).err.None?
    ensures DeployOutcome(original, manifests, remotes, builds, env).applied.None?
  {
  }

  /**
   * kubectl apply is reached only when every rewriting step succeeded, and
   * then it receives exactly their result; the deploy fails exactly when a
   * step or the apply failed.
   */
  lemma ApplyOnlyAfterPrepare(original: seq<Built>, manifests: seq<string>, remotes: seq<string>, builds: seq<Built>, env: Env)
    ensures var o := DeployOutcome(original, manifests, remotes, builds, env);
      o.applied.Some? ==> (Gather(manifests, remotes, env).Ok? &&
        |Gather(manifests, remotes, env).value| > 0 &&
        Prepare(Gather(manifests, remotes, env).value, builds, env) == Ok(o.applied.value) &&
        (o.err.None? <==> env.apply(o.applied.value).None?))
    ensures var o := DeployOutcome(original, manifests, remotes, builds, env);
      Gather(manifests, remotes, env).Ok? && |Gather(manifests, remotes, env).value| > 0 &&
      Prepare(Gather(manifests, remotes, env).value, builds, env).Err? ==>
        (o.applied.None? && o.err.Some?)
  {
  }

  /** A failing transform stops the chain: no later transform runs, and its error is wrapped. */
  lemma {:induction false} TransformStopsAtFirstFailure(ms: seq<Manifest>, builds: seq<Built>, ts: seq<(seq<Manifest>, seq<Built>) -> Result<seq<Manifest>>>, i: nat, mid: seq<Manifest>)
    requires i < |ts| && Transform(ms, builds, ts[..i]) == Ok(mid) && ts[i](mid, builds).Err?
    ensures Transform(ms, builds, ts) == Err(Wrap("unable to transform manifests", ts[i](mid, builds).error))
    decreases i
  {
    if i > 0 {
      assert ts[..i][0] == ts[0] && ts[..i][1..] == ts[1..][..i - 1];
      var m' := ts[0](ms, builds).value;
      TransformStopsAtFirstFailure(m', builds, ts[1..], i - 1, mid);
    }
  }

  /** The deployer: its configuration and the images found in the manifests on the first deploy. */
  class KubectlDeployer {
    /** `KubectlDeploy.Manifests` */
    const manifests: seq<string>
    /** `KubectlDeploy.RemoteManifests` */
    const remoteManifests: seq<string>
    var originalImages: seq<Built>

    constructor (manifests: seq<string>, remoteManifests: seq<string>)
      ensures this.manifests == manifests && this.remoteManifests == remoteManifests && originalImages == []
    {
      this.manifests := manifests;
      this.remoteManifests := remoteManifests;
      originalImages := [];
    }

    /** `Labels`: the deployer label. */
    function Labels(): (r: map<string, string>)
      ensures r.Keys == {"skaffold-deployer"} && r["skaffold-deployer"] == "kubectl"
    {
      map["skaffold-deployer" := "kubectl"]
    }

    /** `manifestFiles`: drop URLs, expand the globs, drop unsupported files not listed literally. */
    method ManifestFiles(ms: seq<string>, env: Env) returns (r: Result<seq<string>>)
      ensures r == ManifestFileList(ms, env)
    {
      var nonURL := [];
      var i := 0;
      while i < |ms|
        invariant 0 <= i <= |ms|
        invariant nonURL == NonURLs(ms[..i], env)
      {
        assert ms[..i + 1][..i] == ms[..i];
        if !env.isURL(ms[i]) {
          nonURL := nonURL + [ms[i]];
        }
        i := i + 1;
      }
      assert ms[..i] == ms;
      var list := env.glob(nonURL);
      if list.Err? {
        return Err(Wrap("expanding kubectl manifest paths", list.error));
      }
      var filtered := [];
      var j := 0;
      while j < |list.value|
        invariant 0 <= j <= |list.value|
        invariant filtered == Kept(list.value[..j], ms, env)
      {
        var f := list.value[j];
        assert list.value[..j + 1][..j] == list.value[..j];
        if env.supported(f) || f in ms {
          filtered := filtered + [f];
        }
        j := j + 1;
      }
      assert list.value[..j] == list.value;
      return Ok(filtered);
    }

    /** `Dependencies`: the manifest files of the configuration. */
    method Dependencies(env: Env) returns (r: Result<seq<string>>)
      ensures r == ManifestFileList(manifests, env)
    {
      r := ManifestFiles(manifests, env);
    }

    /** `readManifests`: the files, then the URL manifests, read by kubectl unless there are none. */
    method ReadManifests(env: Env) returns (r: Result<seq<Manifest>>)
      ensures r == ReadManifestList(manifests, env)
    {
      var files := Dependencies(env);
      if files.Err? {
        return Err(Wrap("listing manifests", files.error));
      }
      var all := files.value;
      var i := 0;
      while i < |manifests|
        invariant 0 <= i <= |manifests|
        invariant all == files.value + URLs(manifests[..i], env)
      {
        assert manifests[..i + 1][..i] == manifests[..i];
        if env.isURL(manifests[i]) {
          all := all + [manifests[i]];
        }
        i := i + 1;
      }
      assert manifests[..i] == manifests;
      if |all| == 0 {
        return Ok([]);
      }
      r := env.read(all);
    }

    /** The manifests to deploy: the local ones, then each remote one in order; the first failure stops it. */
    method GatherManifests(env: Env) returns (r: Result<seq<Manifest>>)
      ensures r == Gather(manifests, remoteManifests, env)
    {
      var read := ReadManifests(env);
      if read.Err? {
        return Err(Wrap("reading manifests", read.error));
      }
      var ms := read.value;
      var i := 0;
      while i < |remoteManifests|
        invariant 0 <= i <= |remoteManifests|
        invariant Gather(manifests, remoteManifests, env) == Prepend(ms, ReadRemotes(remoteManifests[i..], env))
      {
        assert remoteManifests[i..][0] == remoteManifests[i] && remoteManifests[i..][1..] == remoteManifests[i + 1..];
        var m := ReadRemoteManifest(remoteManifests[i], env);
        if m.Err? {
          assert ReadRemotes(remoteManifests[i..], env) == Err(Wrap("get remote manifests", m.error));
          return Err(Wrap("get remote manifests", m.error));
        }
        assert ReadRemotes(remoteManifests[i..], env) == Prepend([m.value], ReadRemotes(remoteManifests[i + 1..], env));
        PrependPrepend(ms, m.value, ReadRemotes(remoteManifests[i + 1..], env));
        ms := ms + [m.value];
        i := i + 1;
      }
      assert ms + [] == ms;
      return Ok(ms);
    }

    /**
     * `Deploy`: gather the manifests, capture the original images on the
     * first deploy, then rewrite and apply unless there is nothing to apply.
     */
    method Deploy(builds: seq<Built>, env: Env) returns (err: Option<string>, applied: Option<seq<Manifest>>)
      modifies this`originalImages
      ensures (err, originalImages, applied) == (var o := DeployOutcome(old(originalImages), manifests, remoteManifests, builds, env); (o.err, o.originalImages, o.applied))
    {
      var gathered := GatherManifests(env);
      if gathered.Err? {
        return Some(gathered.error), None;
      }
      var ms := gathered.value;
      if |originalImages| == 0 {
        var images := env.getImages(ms);
        if images.Err? {
          originalImages := [];
          return Some(Wrap("get images from manifests", images.error)), None;
        }
        originalImages := images.value;
      }
      if |ms| == 0 {
        return None, None;
      }
      var replaced := env.replaceImages(ms, builds);
      if replaced.Err? {
        return Some(Wrap("replacing images in manifests", replaced.error)), None;
      }
      var labelled := env.setLabels(replaced.value);
      if labelled.Err? {
        return Some(Wrap("setting labels in manifests", labelled.error)), None;
      }
      var ready := labelled.value;
      ghost var images := originalImages;
      var j := 0;
      while j < |env.transforms|
        invariant 0 <= j <= |env.transforms|
        invariant Prepare(ms, builds, env) == Transform(ready, builds, env.transforms[j..])
        invariant originalImages == images
      {
        assert env.transforms[j..][1..] == env.transforms[j + 1..];
        var t := env.transforms[j](ready, builds);
        if t.Err? {
          return Some(Wrap("unable to transform manifests", t.error)), None;
        }
        ready := t.value;
        j := j + 1;
      }
      var applyErr := env.apply(ready);
      if applyErr.Some? {
        return Some(Wrap("kubectl error", applyErr.value)), Some(ready);
      }
      return None, Some(ready);
    }
  }
}
