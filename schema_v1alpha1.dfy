/**
 * The first configuration schema (schema/v1alpha1/config.go): the builder,
 * deployer and tagger it selects, and `Parse`, which resets the
 * configuration it is called on before decoding into it. A pointer field that
 * is set is `true`. The YAML decoder is a collaborator: it overlays the file
 * on the configuration it is given, and its outcome is an input. The tag
 * policies of the dev and run defaults come from the constants package, which
 * is not part of this model, so they are parameters.
 */
module SchemaV1alpha1 {
  import opened Errors
  import L = SchemaLatest

  const Version := "skaffold/v1alpha1"

  /** `SkaffoldPipeline`; only the fields the selection and the defaults touch. */
  datatype SkaffoldPipeline = SkaffoldPipeline(apiVersion: string, kind: string, googleCloudBuild: bool, tagPolicy: string, helmDeploy: bool)

  /** The default tag policies of dev and of run mode. */
  datatype TagStrategies = TagStrategies(dev: string, run: string)

  /** The zero configuration. */
  const Zero := SkaffoldPipeline("", "", false, "", false)

  /** `GetVersion`. */
  function GetVersion(c: SkaffoldPipeline): (r: string)
    ensures r == c.apiVersion
  {
    c.apiVersion
  }

  /** `GetBuilderName`: Google Cloud Build when configured, local otherwise. */
  function GetBuilderName(c: SkaffoldPipeline): (r: L.BuilderName)
    ensures r == L.GoogleCloudBuilder <==> c.googleCloudBuild
    ensures r == L.LocalBuilder <==> !c.googleCloudBuild
  {
    if c.googleCloudBuild then L.GoogleCloudBuilder else L.LocalBuilder
  }

  /** `GetDeployerName`: helm when configured, kubectl otherwise. */
  function GetDeployerName(c: SkaffoldPipeline): (r: L.DeployerName)
    ensures r == L.HelmDeployer <==> c.helmDeploy
    ensures r == L.KubectlDeployer <==> !c.helmDeploy
  {
    if c.helmDeploy then L.HelmDeployer else L.KubectlDeployer
  }

  /** `GetTaggerName`: always the sha256 tagger, whatever the tag policy says. */
  function GetTaggerName(c: SkaffoldPipeline): (r: L.TaggerName)
    ensures r == L.ShaTagger
  {
    L.ShaTagger
  }

  /** The configured tag policy never changes the tagger chosen. */
  lemma TagPolicyNotConsulted(c: SkaffoldPipeline, p: string)
    ensures GetTaggerName(c.(tagPolicy := p)) == GetTaggerName(c)
  {
  }

  /** `getDefaultForMode`: the dev default in dev mode, the run default otherwise; they differ only in the tag policy. */
  function DefaultForMode(dev: bool, s: TagStrategies): (r: SkaffoldPipeline)
    ensures r == Zero.(tagPolicy := if dev then s.dev else s.run)
  {
    if dev then Zero.(tagPolicy := s.dev) else Zero.(tagPolicy := s.run)
  }

  /** The configuration `Parse` decodes into: the run-mode default, or the zero value. */
  function ParseBase(useDefault: bool, s: TagStrategies): (r: SkaffoldPipeline)
    ensures !useDefault ==> r == Zero
    ensures useDefault ==> r == DefaultForMode(false, s)
  {
    if useDefault then DefaultForMode(false, s) else Zero
  }

  /**
   * A file that says nothing of the tag policy leaves the run default's
   * policy in place with defaults, and the empty policy without; the
   * configuration held before never shows through.
   */
  lemma UnsetTagPolicyComesFromBase(useDefault: bool, s: TagStrategies, unmarshal: SkaffoldPipeline -> (SkaffoldPipeline, Option<string>))
    requires forall c :: unmarshal(c).0.tagPolicy == c.tagPolicy
    ensures unmarshal(ParseBase(useDefault, s)).0.tagPolicy == (if useDefault then s.run else "")
  {
  }

  /** A configuration read from a file. */
  class Config {
    var pipeline: SkaffoldPipeline

    constructor ()
      ensures pipeline == Zero
    {
      pipeline := Zero;
    }

    /**
     * `Parse`: overwrite the configuration with the run-mode default or
     * the zero value, then decode the file over it; the decoder's error, if
     * any, is returned and whatever it produced is kept.
     */
    method Parse(useDefault: bool, s: TagStrategies, unmarshal: SkaffoldPipeline -> (SkaffoldPipeline, Option<string>))
      returns (err: Option<string>)
      modifies this
      ensures pipeline == unmarshal(ParseBase(useDefault, s)).0
      ensures err == unmarshal(ParseBase(useDefault, s)).1
    {
      if useDefault {
        pipeline := DefaultForMode(false, s);
      } else {
        pipeline := Zero;
      }
      var decoded := unmarshal(pipeline);
      pipeline := decoded.0;
      err := decoded.1;
    }
  }
}
