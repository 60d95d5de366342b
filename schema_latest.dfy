/**
 * The current configuration schema (schema/latest/config.go): which
 * builder, deployer and tagger a pipeline configuration selects, its
 * version, and the order of decoding and defaulting in `Parse`. A pointer
 * field that is set is `true`; the settings behind it are not modelled. The
 * YAML decoder and the defaulting pass are collaborators; their outcomes are
 * inputs.
 */
module SchemaLatest {
  import opened Errors

  const Version := "skaffold/v1alpha5"

  /** Which build types are configured. */
  datatype BuildType = BuildType(localBuild: bool, googleCloudBuild: bool, kanikoBuild: bool, azureContainerBuild: bool)

  /** Which taggers are configured. */
  datatype TagPolicy = TagPolicy(gitTagger: bool, shaTagger: bool, envTemplateTagger: bool, dateTimeTagger: bool)

  /** Which deployers are configured. */
  datatype DeployConfig = DeployConfig(helmDeploy: bool, kubectlDeploy: bool, kustomizeDeploy: bool)

  /** `SkaffoldPipeline`; its artifacts, tests and profiles are not modelled. */
  datatype SkaffoldPipeline = SkaffoldPipeline(apiVersion: string, kind: string, build: BuildType, tagPolicy: TagPolicy, deploy: DeployConfig)

  datatype BuilderName = GoogleCloudBuilder | KanikoBuilder | AzureContainerBuilder | LocalBuilder
  datatype DeployerName = HelmDeployer | KustomizeDeployer | KubectlDeployer
  datatype TaggerName = EnvTemplateTagger | ShaTagger | DateTimeTagger | GitTagger

  /** `GetVersion`. */
  function GetVersion(c: SkaffoldPipeline): (r: string)
    ensures r == c.apiVersion
  {
    c.apiVersion
  }

  /** `GetBuilderName`: Google Cloud Build, then kaniko, then ACR, and local otherwise. */
  function GetBuilderName(c: SkaffoldPipeline): (r: BuilderName)
    ensures r == GoogleCloudBuilder <==> c.build.googleCloudBuild
    ensures r == KanikoBuilder <==> !c.build.googleCloudBuild && c.build.kanikoBuild
    ensures r == AzureContainerBuilder <==> !c.build.googleCloudBuild && !c.build.kanikoBuild && c.build.azureContainerBuild
    ensures r == LocalBuilder <==> !c.build.googleCloudBuild && !c.build.kanikoBuild && !c.build.azureContainerBuild
  {
    if c.build.googleCloudBuild then GoogleCloudBuilder
    else if c.build.kanikoBuild then KanikoBuilder
    else if c.build.azureContainerBuild then AzureContainerBuilder
    else LocalBuilder
  }

  /** Whether a local build is configured never affects the builder chosen. */
  lemma LocalBuildNotConsulted(c: SkaffoldPipeline, localBuild: bool)
    ensures GetBuilderName(c.(build := c.build.(localBuild := localBuild))) == GetBuilderName(c)
  {
  }

  /** `GetDeployerName`: helm, then kustomize, and kubectl otherwise. */
  function GetDeployerName(c: SkaffoldPipeline): (r: DeployerName)
    ensures r == HelmDeployer <==> c.deploy.helmDeploy
    ensures r == KustomizeDeployer <==> !c.deploy.helmDeploy && c.deploy.kustomizeDeploy
    ensures r == KubectlDeployer <==> !c.deploy.helmDeploy && !c.deploy.kustomizeDeploy
  {
    if c.deploy.helmDeploy then HelmDeployer
    else if c.deploy.kustomizeDeploy then KustomizeDeployer
    else KubectlDeployer
  }

  /** `GetTaggerName`: envTemplate, then sha256, then dateTime, and gitCommit otherwise. */
  function GetTaggerName(c: SkaffoldPipeline): (r: TaggerName)
    ensures r == EnvTemplateTagger <==> c.tagPolicy.envTemplateTagger
    ensures r == ShaTagger <==> !c.tagPolicy.envTemplateTagger && c.tagPolicy.shaTagger
    ensures r == DateTimeTagger <==> !c.tagPolicy.envTemplateTagger && !c.tagPolicy.shaTagger && c.tagPolicy.dateTimeTagger
    ensures r == GitTagger <==> !c.tagPolicy.envTemplateTagger && !c.tagPolicy.shaTagger && !c.tagPolicy.dateTimeTagger
  {
    if c.tagPolicy.envTemplateTagger then EnvTemplateTagger
    else if c.tagPolicy.shaTagger then ShaTagger
    else if c.tagPolicy.dateTimeTagger then DateTimeTagger
    else GitTagger
  }

  /** Whether the git tagger is configured never affects the tagger chosen. */
  lemma GitTaggerNotConsulted(c: SkaffoldPipeline, git: bool)
    ensures GetTaggerName(c.(tagPolicy := c.tagPolicy.(gitTagger := git))) == GetTaggerName(c)
  {
  }

  /**
   * `Parse`: the decoded configuration, then, only when defaults are asked
   * for, the defaulting pass applied to it; a decoding error is returned as
   * is and a defaulting error wrapped.
   */
  function Parse(decoded: Result<SkaffoldPipeline>, useDefaults: bool, setDefaults: SkaffoldPipeline -> Result<SkaffoldPipeline>)
    : (r: Result<SkaffoldPipeline>)
    ensures decoded.Err? ==> r == decoded
    ensures decoded.Ok? && !useDefaults ==> r == decoded
    ensures decoded.Ok? && useDefaults && setDefaults(decoded.value).Ok? ==> r == setDefaults(decoded.value)
    ensures decoded.Ok? && useDefaults && setDefaults(decoded.value).Err? ==>
      r == Err(Wrap("applying default values", setDefaults(decoded.value).error))
  {
    match decoded
    case Err(e) => Err(e)
    case Ok(c) =>
      if !useDefaults then Ok(c)
      else
        match setDefaults(c)
        case Err(e) => Err(Wrap("applying default values", e))
        case Ok(d) => Ok(d)
  }

  /** Defaults fill in only what decoding produced: a failed decoding never reaches the defaulting pass. */
  lemma DefaultsOnlyAfterDecoding(decoded: Result<SkaffoldPipeline>, useDefaults: bool, f: SkaffoldPipeline -> Result<SkaffoldPipeline>, g: SkaffoldPipeline -> Result<SkaffoldPipeline>)
    requires decoded.Err? || !useDefaults
    ensures Parse(decoded, useDefaults, f) == Parse(decoded, useDefaults, g) == decoded
  {
  }
}
