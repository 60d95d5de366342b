/**
 * The runner: selection of the builder, deployer and tagger from the
 * configuration, tag generation for a list of artifacts, and the
 * build / test / deploy sequence with its `hasBuilt` / `hasDeployed`
 * bookkeeping. Two revisions of the deploy step are modelled: the one that
 * deploys then tails logs, and the one that loads images into kind, records
 * namespaces and runs the status check. Every collaborator (tagger, cache,
 * builder, tester, deployer, logger, kind loader, status check) is an input.
 */
module Runner {
  import opened Errors
  import opened Artifacts
  import Seqs

  // ---------------------------------------------------------------------------
  // Collaborator selection

  /** Which build sub-configurations are present. */
  datatype BuildConfig = BuildConfig(localBuild: bool, googleCloudBuild: bool, cluster: bool)

  datatype BuilderKind = LocalBuilder | GoogleCloudBuilder | ClusterBuilder

  predicate BuilderConfigured(cfg: BuildConfig, k: BuilderKind)
  {
    match k
    case LocalBuilder => cfg.localBuild
    case GoogleCloudBuilder => cfg.googleCloudBuild
    case ClusterBuilder => cfg.cluster
  }

  function BuilderRank(k: BuilderKind): nat
  {
    match k
    case LocalBuilder => 0
    case GoogleCloudBuilder => 1
    case ClusterBuilder => 2
  }

  /**
   * `getBuilder`: the configured builder of highest priority (local, Google
   * Cloud Build, cluster). `localErr` / `clusterErr` are what the local and
   * cluster constructors return; `cfgText` is the `%+v` rendering of the build
   * configuration.
   */
  function GetBuilder(cfg: BuildConfig, localErr: Option<string>, clusterErr: Option<string>, cfgText: string): (r: Result<BuilderKind>)
    ensures r.Ok? ==> (BuilderConfigured(cfg, r.value)
      && forall k :: BuilderRank(k) < BuilderRank(r.value) ==> !BuilderConfigured(cfg, k))
    ensures r.Ok? ==> (r.value == LocalBuilder ==> localErr.None?) && (r.value == ClusterBuilder ==> clusterErr.None?)
    ensures (forall k :: !BuilderConfigured(cfg, k)) ==> r == Err("unknown builder for config " + cfgText)
    ensures r.Err? && (exists k :: BuilderConfigured(cfg, k)) ==>
      (cfg.localBuild && localErr == Some(r.error)) || (!cfg.localBuild && !cfg.googleCloudBuild && clusterErr == Some(r.error))
  {
    if cfg.localBuild then
      assert BuilderConfigured(cfg, LocalBuilder);
      if localErr.Some? then Err(localErr.value) else Ok(LocalBuilder)
    else if cfg.googleCloudBuild then Ok(GoogleCloudBuilder)
    else if cfg.cluster then
      assert BuilderConfigured(cfg, ClusterBuilder);
      if clusterErr.Some? then Err(clusterErr.value) else Ok(ClusterBuilder)
    else
      assert !BuilderConfigured(cfg, LocalBuilder) && !BuilderConfigured(cfg, GoogleCloudBuilder) && !BuilderConfigured(cfg, ClusterBuilder);
      Err("unknown builder for config " + cfgText)
  }

  /** Which deploy sub-configurations are present. */
  datatype DeployConfig = DeployConfig(helmDeploy: bool, kubectlDeploy: bool, kustomizeDeploy: bool)

  datatype DeployerKind = HelmDeployer | KubectlDeployer | KustomizeDeployer

  predicate DeployerConfigured(cfg: DeployConfig, k: DeployerKind)
  {
    match k
    case HelmDeployer => cfg.helmDeploy
    case KubectlDeployer => cfg.kubectlDeploy
    case KustomizeDeployer => cfg.kustomizeDeploy
  }

  function DeployerRank(k: DeployerKind): nat
  {
    match k
    case HelmDeployer => 0
    case KubectlDeployer => 1
    case KustomizeDeployer => 2
  }

  /** `getDeployer`: the configured deployer of highest priority (helm, kubectl, kustomize). */
  function GetDeployer(cfg: DeployConfig, cfgText: string): (r: Result<DeployerKind>)
    ensures r.Ok? ==> (DeployerConfigured(cfg, r.value)
      && forall k :: DeployerRank(k) < DeployerRank(r.value) ==> !DeployerConfigured(cfg, k))
    ensures r.Err? <==> forall k :: !DeployerConfigured(cfg, k)
    ensures r.Err? ==> r.error == "unknown deployer for config " + cfgText
  {
    if cfg.helmDeploy then Ok(HelmDeployer)
    else if cfg.kubectlDeploy then Ok(KubectlDeployer)
    else if cfg.kustomizeDeploy then Ok(KustomizeDeployer)
    else
      assert !DeployerConfigured(cfg, HelmDeployer) && !DeployerConfigured(cfg, KubectlDeployer) && !DeployerConfigured(cfg, KustomizeDeployer);
      Err("unknown deployer for config " + cfgText)
  }

  /** The tag policy: each present tagger with its settings. */
  datatype TagPolicy = TagPolicy(
    envTemplate: Option<string>,
    sha256: bool,
    gitCommit: Option<string>,
    dateTime: Option<(string, string)>)

  datatype Tagger =
    | CustomTag(tag: string)
    | EnvTemplateTagger(template: string)
    | ChecksumTagger
    | GitCommitTagger(variant: string)
    | DateTimeTagger(format: string, timeZone: string)

  /** Whether the custom tag or the policy asks for this tagger (ignoring its settings). */
  predicate TaggerRequested(t: TagPolicy, customTag: string, k: Tagger)
  {
    match k
    case CustomTag(_) => customTag != ""
    case EnvTemplateTagger(_) => t.envTemplate.Some?
    case ChecksumTagger => t.sha256
    case GitCommitTagger(_) => t.gitCommit.Some?
    case DateTimeTagger(_, _) => t.dateTime.Some?
  }

  function TaggerRank(k: Tagger): nat
  {
    match k
    case CustomTag(_) => 0
    case EnvTemplateTagger(_) => 1
    case ChecksumTagger => 2
    case GitCommitTagger(_) => 3
    case DateTimeTagger(_, _) => 4
  }

  /**
   * `getTagger`: a non-empty custom tag wins; otherwise the first tagger of
   * the policy in the order env template, sha256, git commit, date-time.
   * `templateErr` / `variantErr` are what the env-template and git-commit
   * constructors return for their settings.
   */
  function GetTagger(t: TagPolicy, customTag: string, templateErr: Option<string>, variantErr: Option<string>, policyText: string): (r: Result<Tagger>)
    ensures r.Ok? ==> (TaggerRequested(t, customTag, r.value)
      && forall k :: TaggerRank(k) < TaggerRank(r.value) ==> !TaggerRequested(t, customTag, k))
    ensures customTag != "" ==> r == Ok(CustomTag(customTag))
    ensures r.Ok? && r.value.EnvTemplateTagger? ==> r.value.template == t.envTemplate.value
    ensures r.Ok? && r.value.GitCommitTagger? ==> r.value.variant == t.gitCommit.value
    ensures r.Ok? && r.value.DateTimeTagger? ==> (r.value.format, r.value.timeZone) == t.dateTime.value
    ensures customTag == "" && t.envTemplate.None? && !t.sha256 && t.gitCommit.None? && t.dateTime.None? ==>
      r == Err("unknown tagger for strategy " + policyText)
    ensures r.Err? && (customTag != "" || t.envTemplate.Some? || t.sha256 || t.gitCommit.Some? || t.dateTime.Some?) ==>
      (t.envTemplate.Some? && templateErr == Some(r.error)) || (t.envTemplate.None? && !t.sha256 && t.gitCommit.Some? && variantErr == Some(r.error))
  {
    if customTag != "" then Ok(CustomTag(customTag))
    else if t.envTemplate.Some? then (if templateErr.Some? then Err(templateErr.value) else Ok(EnvTemplateTagger(t.envTemplate.value)))
    else if t.sha256 then Ok(ChecksumTagger)
    else if t.gitCommit.Some? then (if variantErr.Some? then Err(variantErr.value) else Ok(GitCommitTagger(t.gitCommit.value)))
    else if t.dateTime.Some? then Ok(DateTimeTagger(t.dateTime.value.0, t.dateTime.value.1))
    else Err("unknown tagger for strategy " + policyText)
  }

  // ---------------------------------------------------------------------------
  // imageTags

  /** What the wait for one artifact's tag sees: cancellation, or the tagger's answer. */
  datatype TagWait = Canceled | Tagged(tag: string) | TagFailed(error: string)

  /** `imageTags` from artifact 0 on, with the map built so far. */
  function TagsFrom(artifacts: seq<Artifact>, waits: seq<TagWait>, acc: map<string, string>): Result<map<string, string>>
    requires |waits| == |artifacts|
  {
    if |artifacts| == 0 then Ok(acc)
    else
      match waits[0]
      case Canceled => Err(ContextCanceled)
      case TagFailed(e) => Err(Wrap("generating tag for " + artifacts[0].imageName, e))
      case Tagged(t) => TagsFrom(artifacts[1..], waits[1..], acc[artifacts[0].imageName := t])
  }

  /** `imageTags`: the tag waits consumed in artifact order, each tag stored under its image name. */
  method ImageTags(artifacts: seq<Artifact>, waits: seq<TagWait>) returns (r: Result<map<string, string>>)
    requires |waits| == |artifacts|
    ensures r == TagsFrom(artifacts, waits, map[])
  {
    var tags: map<string, string> := map[];
    var i := 0;
    while i < |artifacts|
      invariant 0 <= i <= |artifacts|
      invariant TagsFrom(artifacts[i..], waits[i..], tags) == TagsFrom(artifacts, waits, map[])
    {
      assert artifacts[i..][1..] == artifacts[i + 1..] && waits[i..][1..] == waits[i + 1..];
      match waits[i]
      case Canceled =>
        return Err(ContextCanceled);
      case TagFailed(e) =>
        return Err(Wrap("generating tag for " + artifacts[i].imageName, e));
      case Tagged(t) =>
        tags := tags[artifacts[i].imageName := t];
      i := i + 1;
    }
    r := Ok(tags);
  }

  /**
   * When every tag arrives, the map has exactly one entry per image name, and
   * an image listed several times keeps the tag of its last occurrence.
   */
  lemma {:induction false} TagsFromAllTagged(artifacts: seq<Artifact>, waits: seq<TagWait>, acc: map<string, string>)
    requires |waits| == |artifacts|
    requires forall i :: 0 <= i < |waits| ==> waits[i].Tagged?
    ensures TagsFrom(artifacts, waits, acc).Ok?
    ensures TagsFrom(artifacts, waits, acc).value.Keys == acc.Keys + set i | 0 <= i < |artifacts| :: artifacts[i].imageName
    ensures forall i :: 0 <= i < |artifacts| && (forall j :: i < j < |artifacts| ==> artifacts[j].imageName != artifacts[i].imageName) ==>
      TagsFrom(artifacts, waits, acc).value[artifacts[i].imageName] == waits[i].tag
    ensures forall x :: x in acc && (forall i :: 0 <= i < |artifacts| ==> artifacts[i].imageName != x) ==>
      TagsFrom(artifacts, waits, acc).value[x] == acc[x]
  {
    TagsFromKeys(artifacts, waits, acc);
    TagsFromLastWins(artifacts, waits, acc);
  }

  /** With every tag there, the map holds the names of `acc` and of the artifacts, and keeps what `acc` had for other names. */
  lemma {:induction false} TagsFromKeys(artifacts: seq<Artifact>, waits: seq<TagWait>, acc: map<string, string>)
    requires |waits| == |artifacts|
    requires forall i :: 0 <= i < |waits| ==> waits[i].Tagged?
    ensures TagsFrom(artifacts, waits, acc).Ok?
    ensures TagsFrom(artifacts, waits, acc).value.Keys == acc.Keys + set i | 0 <= i < |artifacts| :: artifacts[i].imageName
    ensures forall x :: x in acc && (forall i :: 0 <= i < |artifacts| ==> artifacts[i].imageName != x) ==>
      TagsFrom(artifacts, waits, acc).value[x] == acc[x]
    decreases |artifacts|
  {
    if |artifacts| > 0 {
      var acc' := acc[artifacts[0].imageName := waits[0].tag];
      var rest := artifacts[1..];
      assert forall i :: 0 <= i < |rest| ==> rest[i] == artifacts[i + 1] && waits[1..][i] == waits[i + 1];
      TagsFromKeys(rest, waits[1..], acc');
      assert (set i | 0 <= i < |artifacts| :: artifacts[i].imageName) == {artifacts[0].imageName} + set i | 0 <= i < |rest| :: rest[i].imageName by {
        forall i | 0 <= i < |artifacts|
          ensures artifacts[i].imageName in {artifacts[0].imageName} + set i | 0 <= i < |rest| :: rest[i].imageName
        {
          if i > 0 { assert rest[i - 1] == artifacts[i]; }
        }
      }
    }
  }

  /** With every tag there, an image listed several times keeps the tag of its last occurrence. */
  lemma {:induction false} TagsFromLastWins(artifacts: seq<Artifact>, waits: seq<TagWait>, acc: map<string, string>)
    requires |waits| == |artifacts|
    requires forall i :: 0 <= i < |waits| ==> waits[i].Tagged?
    ensures TagsFrom(artifacts, waits, acc).Ok?
    ensures forall i :: 0 <= i < |artifacts| && (forall j :: i < j < |artifacts| ==> artifacts[j].imageName != artifacts[i].imageName) ==>
      artifacts[i].imageName in TagsFrom(artifacts, waits, acc).value &&
      TagsFrom(artifacts, waits, acc).value[artifacts[i].imageName] == waits[i].tag
    decreases |artifacts|
  {
    TagsFromKeys(artifacts, waits, acc);
    if |artifacts| > 0 {
      var acc' := acc[artifacts[0].imageName := waits[0].tag];
      var rest := artifacts[1..];
      assert forall i :: 0 <= i < |rest| ==> rest[i] == artifacts[i + 1] && waits[1..][i] == waits[i + 1];
      TagsFromLastWins(rest, waits[1..], acc');
      TagsFromKeys(rest, waits[1..], acc');
      var m := TagsFrom(artifacts, waits, acc).value;
      forall i | 0 <= i < |artifacts| && (forall j :: i < j < |artifacts| ==> artifacts[j].imageName != artifacts[i].imageName)
        ensures m[artifacts[i].imageName] == waits[i].tag
      {
        if i > 0 {
          assert rest[i - 1] == artifacts[i];
          assert forall j :: i - 1 < j < |rest| ==> rest[j].imageName != rest[i - 1].imageName;
        } else {
          assert forall j :: 0 <= j < |rest| ==> rest[j].imageName != artifacts[0].imageName;
        }
      }
    }
  }

  /**
   * The first artifact, in list order, whose wait is not a tag decides the
   * error: cancellation gives "context canceled", a tagger error is wrapped
   * with the image name. Later artifacts do not matter.
   */
  lemma {:induction false} TagsFromFirstFailure(artifacts: seq<Artifact>, waits: seq<TagWait>, acc: map<string, string>, k: nat)
    requires |waits| == |artifacts|
    requires k < |waits| && !waits[k].Tagged? && forall j :: 0 <= j < k ==> waits[j].Tagged?
    ensures waits[k].Canceled? ==> TagsFrom(artifacts, waits, acc) == Err(ContextCanceled)
    ensures waits[k].TagFailed? ==> TagsFrom(artifacts, waits, acc) == Err(Wrap("generating tag for " + artifacts[k].imageName, waits[k].error))
    decreases k
  {
    if k > 0 {
      TagsFromFirstFailure(artifacts[1..], waits[1..], acc[artifacts[0].imageName := waits[0].tag], k - 1);
    }
  }

  // ---------------------------------------------------------------------------
  // Build, test, deploy

  /** `build.MergeWithPreviousBuilds`: the new builds, then each previous build whose image was not rebuilt. */
  function MergeWithPreviousBuilds(builds: seq<Built>, previous: seq<Built>): seq<Built>
  {
    var rebuilt := set b | b in builds :: b.imageName;
    builds + Seqs.Filter(previous, (b: Built) => b.imageName !in rebuilt)
  }

  /** After a merge every image of either list is present once more as its newest build: nothing is lost, the new build wins. */
  lemma MergeKeepsEveryImage(builds: seq<Built>, previous: seq<Built>)
    ensures var m := MergeWithPreviousBuilds(builds, previous);
      (forall b :: b in builds ==> b in m)
      && (forall b :: b in previous ==> b in m || exists n :: n in builds && n.imageName == b.imageName)
      && (forall i :: |builds| <= i < |m| ==> m[i] in previous && forall n :: n in builds ==> n.imageName != m[i].imageName)
  {
    var m := MergeWithPreviousBuilds(builds, previous);
    var rebuilt := set b | b in builds :: b.imageName;
    var kept := Seqs.Filter(previous, (b: Built) => b.imageName !in rebuilt);
    forall b | b in previous ensures b in m || exists n :: n in builds && n.imageName == b.imageName {
      if b.imageName in rebuilt {
        var n :| n in builds && n.imageName == b.imageName;
      } else {
        var i :| 0 <= i < |previous| && previous[i] == b;
        assert b in kept;
      }
    }
    forall i | |builds| <= i < |m| ensures m[i] in previous && forall n :: n in builds ==> n.imageName != m[i].imageName {
      assert m[i] == kept[i - |builds|];
    }
  }

  /** What `BuildAndTest` returns. */
  function BuildAndTestResult(skipTests: bool, artifacts: seq<Artifact>, waits: seq<TagWait>,
                              retrieved: Result<(seq<Artifact>, seq<Built>)>,
                              build: (map<string, string>, seq<Artifact>) -> Result<seq<Built>>,
                              test: seq<Built> -> Option<string>): Result<seq<Built>>
    requires |waits| == |artifacts|
  {
    var tags := TagsFrom(artifacts, waits, map[]);
    if tags.Err? then Err(Wrap("generating tag", tags.error))
    else if retrieved.Err? then Err(Wrap("retrieving cached artifacts", retrieved.error))
    else
      var built := build(tags.value, retrieved.value.0);
      if built.Err? then Err(Wrap("build failed", built.error))
      else
        var all := built.value + retrieved.value.1;
        if !skipTests && test(all).Some? then Err(Wrap("test failed", test(all).value))
        else Ok(all)
  }

  /**
   * A successful build-and-test built only what the cache did not hold, with
   * the generated tags, and returns those fresh results followed by the cached
   * ones; the tests passed on exactly that list unless skipped.
   */
  lemma BuildAndTestOrder(skipTests: bool, artifacts: seq<Artifact>, waits: seq<TagWait>,
                          retrieved: Result<(seq<Artifact>, seq<Built>)>,
                          build: (map<string, string>, seq<Artifact>) -> Result<seq<Built>>,
                          test: seq<Built> -> Option<string>)
    requires |waits| == |artifacts|
    requires BuildAndTestResult(skipTests, artifacts, waits, retrieved, build, test).Ok?
    ensures forall i :: 0 <= i < |waits| ==> waits[i].Tagged?
    ensures retrieved.Ok?
    ensures var tags := TagsFrom(artifacts, waits, map[]).value;
      var built := build(tags, retrieved.value.0);
      built.Ok? && BuildAndTestResult(skipTests, artifacts, waits, retrieved, build, test).value == built.value + retrieved.value.1
      && (!skipTests ==> test(built.value + retrieved.value.1).None?)
  {
    if exists k :: 0 <= k < |waits| && !waits[k].Tagged? {
      var k := FirstUntagged(waits);
      TagsFromFirstFailure(artifacts, waits, map[], k);
    }
  }

  /** The first wait that is not a tag. */
  lemma FirstUntagged(waits: seq<TagWait>) returns (k: nat)
    requires exists k :: 0 <= k < |waits| && !waits[k].Tagged?
    ensures k < |waits| && !waits[k].Tagged? && forall j :: 0 <= j < k ==> waits[j].Tagged?
  {
    k := 0;
    while waits[k].Tagged?
      invariant k < |waits| && forall j :: 0 <= j < k ==> waits[j].Tagged?
      decreases |waits| - k
    {
      k := k + 1;
      assert k < |waits| by {
        if k == |waits| {
          var m :| 0 <= m < |waits| && !waits[m].Tagged?;
        }
      }
    }
  }

  /** The run context options the runner consults. */
  datatype Options = Options(tail: bool, skipTests: bool, statusCheck: bool)

  /** What the deploy step of the kind revision calls, in order. */
  datatype DeployStep = LoadIntoKind | CallDeployer | StatusCheck

  class SkaffoldRunner {
    var hasBuilt: bool
    var hasDeployed: bool
    /** The builds the last deploy used (`r.builds`). */
    var builds: seq<Built>
    /** The tags whose logs are followed (`imageList`). */
    var imageList: set<string>
    /** The run context's namespaces. */
    var namespaces: set<string>
    const opts: Options

    constructor (opts: Options)
      ensures this.opts == opts && !hasBuilt && !hasDeployed && builds == [] && imageList == {} && namespaces == {}
    {
      this.opts := opts;
      hasBuilt := false;
      hasDeployed := false;
      builds := [];
      imageList := {};
      namespaces := {};
    }

    /**
     * `BuildAndTest`. Tags come first; their failure returns before
     * `hasBuilt` is set. Then the cache lookup (`retrieved`: the artifacts
     * still to build and the cached results), the build of what is left, and
     * the tests on the fresh results followed by the cached ones unless tests
     * are skipped. Writing the cache back can only warn, so it is not an input.
     */
    method BuildAndTest(artifacts: seq<Artifact>, waits: seq<TagWait>,
                        retrieved: Result<(seq<Artifact>, seq<Built>)>,
                        build: (map<string, string>, seq<Artifact>) -> Result<seq<Built>>,
                        test: seq<Built> -> Option<string>)
      returns (r: Result<seq<Built>>)
      requires |waits| == |artifacts|
      modifies this`hasBuilt
      ensures hasBuilt == (old(hasBuilt) || TagsFrom(artifacts, waits, map[]).Ok?)
      ensures r == BuildAndTestResult(opts.skipTests, artifacts, waits, retrieved, build, test)
    {
      var tags := ImageTags(artifacts, waits);
      if tags.Err? {
        return Err(Wrap("generating tag", tags.error));
      }
      hasBuilt := true;
      if retrieved.Err? {
        return Err(Wrap("retrieving cached artifacts", retrieved.error));
      }
      var toBuild := retrieved.value.0;
      var built := build(tags.value, toBuild);
      if built.Err? {
        return Err(Wrap("build failed", built.error));
      }
      var all := built.value + retrieved.value.1;
      if !opts.skipTests {
        var e := test(all);
        if e.Some? {
          return Err(Wrap("test failed", e.value));
        }
      }
      r := Ok(all);
    }

    /** `deploy`: calls the deployer and marks the runner as having deployed, whatever the deployer answered. */
    method DeployOnce(deployed: seq<Built>, deployer: seq<Built> -> Option<string>) returns (err: Option<string>)
      modifies this`hasDeployed
      ensures hasDeployed
      ensures err == deployer(deployed)
    {
      err := deployer(deployed);
      hasDeployed := true;
    }

    /**
     * `buildTestDeploy`: build and test; on success every new tag joins the
     * image list, the builds are merged with the previous ones and the merged
     * list is deployed. A build or test failure changes nothing but `hasBuilt`.
     */
    method BuildTestDeploy(artifacts: seq<Artifact>, waits: seq<TagWait>,
                           retrieved: Result<(seq<Artifact>, seq<Built>)>,
                           build: (map<string, string>, seq<Artifact>) -> Result<seq<Built>>,
                           test: seq<Built> -> Option<string>,
                           deployer: seq<Built> -> Option<string>)
      returns (err: Option<string>)
      requires |waits| == |artifacts|
      modifies this`hasBuilt, this`hasDeployed, this`imageList, this`builds
      ensures hasBuilt == (old(hasBuilt) || TagsFrom(artifacts, waits, map[]).Ok?)
      ensures var res := BuildAndTestResult(opts.skipTests, artifacts, waits, retrieved, build, test);
        if res.Err? then
          err == Some(res.error) && hasDeployed == old(hasDeployed) && imageList == old(imageList) && builds == old(builds)
        else
          imageList == old(imageList) + (set b | b in res.value :: b.tag)
          && builds == MergeWithPreviousBuilds(res.value, old(builds))
          && hasDeployed
          && err == (if deployer(builds).Some? then Some(Wrap("deploy failed", deployer(builds).value)) else None)
    {
      var res := BuildAndTest(artifacts, waits, retrieved, build, test);
      if res.Err? {
        return Some(res.error);
      }
      var made := res.value;
      imageList := imageList + set b | b in made :: b.tag;
      builds := MergeWithPreviousBuilds(made, builds);
      var e := DeployOnce(builds, deployer);
      if e.Some? {
        return Some(Wrap("deploy failed", e.value));
      }
      err := None;
    }

    /**
     * `Deploy` of runner.go: deploy, then, when tailing, start the logger on
     * the deployed images (`loggerErr` is its start result) and follow logs
     * until cancellation, which ends without error.
     */
    method DeployAndTail(deployed: seq<Built>, deployer: seq<Built> -> Option<string>, loggerErr: Option<string>)
      returns (err: Option<string>, tailed: seq<string>)
      modifies this`hasDeployed
      ensures hasDeployed
      ensures deployer(deployed).Some? ==> err == deployer(deployed) && tailed == []
      ensures deployer(deployed).None? && !opts.tail ==> err == None && tailed == []
      ensures deployer(deployed).None? && opts.tail ==>
        tailed == Names(deployed) && err == (if loggerErr.Some? then Some(Wrap("starting logger", loggerErr.value)) else None)
    {
      tailed := [];
      var e := DeployOnce(deployed, deployer);
      if e.Some? {
        return e, tailed;
      }
      if opts.tail {
        tailed := Names(deployed);
        if loggerErr.Some? {
          return Some(Wrap("starting logger", loggerErr.value)), tailed;
        }
      }
      err := None;
    }

    /**
     * `Deploy` of deploy.go. On a kind cluster the images are loaded first and
     * a load failure returns before the deployer runs. The deployer's call
     * marks the runner as having deployed; its error is returned as is, with
     * no namespace update. On success its namespaces join the run context's,
     * and the result is the status check's when that option is on, nil
     * otherwise.
     */
    method Deploy(deployed: seq<Built>, isKind: bool, loadErr: Option<string>,
                  deployer: seq<Built> -> Result<set<string>>, statusErr: Option<string>)
      returns (err: Option<string>, steps: seq<DeployStep>)
      modifies this`hasDeployed, this`namespaces
      ensures isKind && loadErr.Some? ==>
        err == Some(Wrap("loading images into kind nodes", loadErr.value)) && steps == [LoadIntoKind]
        && hasDeployed == old(hasDeployed) && namespaces == old(namespaces)
      ensures !(isKind && loadErr.Some?) ==>
        var called := (if isKind then [LoadIntoKind] else []) + [CallDeployer];
        var res := deployer(deployed);
        hasDeployed
        && (res.Err? ==> err == Some(res.error) && steps == called && namespaces == old(namespaces))
        && (res.Ok? ==> (namespaces == old(namespaces) + res.value
            && (opts.statusCheck ==> steps == called + [StatusCheck] && err == statusErr)
            && (!opts.statusCheck ==> steps == called && err == None)))
    {
      steps := [];
      if isKind {
        steps := [LoadIntoKind];
        if loadErr.Some? {
          return Some(Wrap("loading images into kind nodes", loadErr.value)), steps;
        }
      }
      var res := deployer(deployed);
      steps := steps + [CallDeployer];
      hasDeployed := true;
      if res.Err? {
        return Some(res.error), steps;
      }
      namespaces := namespaces + res.value;
      err := PerformStatusCheck(statusErr);
      if opts.statusCheck {
        steps := steps + [StatusCheck];
      }
    }

    /** `performStatusCheck`: the status check's result when the option is on, else nil. */
    method PerformStatusCheck(statusErr: Option<string>) returns (err: Option<string>)
      ensures opts.statusCheck ==> err == statusErr
      ensures !opts.statusCheck ==> err == None
    {
      err := if opts.statusCheck then statusErr else None;
    }
  }
}
