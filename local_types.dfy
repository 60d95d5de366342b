/**
 * Creating the local builder (build/local/types.go): whether the kube
 * context names a local cluster, whether built images are pushed, and the
 * builder's labels. The docker client and its version query are
 * collaborators; their outcomes are inputs.
 */
module LocalTypes {
  import opened Errors

  const DefaultMinikubeContext := "minikube"
  const DefaultDockerForDesktopContext := "docker-for-desktop"
  const DefaultDockerDesktopContext := "docker-desktop"

  /** The settings `NewBuilder` decides; the docker client itself is not modelled. */
  datatype Builder = Builder(kubeContext: string, localCluster: bool, pushImages: bool)

  /** A kube context is a local cluster when it is minikube's or Docker for Desktop's default. */
  predicate IsLocalCluster(kubeContext: string)
  {
    kubeContext == DefaultMinikubeContext || kubeContext == DefaultDockerForDesktopContext
  }

  /** `docker-desktop`, the newer Docker Desktop context, is not taken for a local cluster. */
  lemma DockerDesktopIsRemote()
    ensures !IsLocalCluster(DefaultDockerDesktopContext)
  {
    assert DefaultDockerDesktopContext[7] != DefaultDockerForDesktopContext[7];
  }

  /** Whether images are pushed: the configured `push`, or when unset, exactly when the cluster is not local. */
  function PushImages(push: Option<bool>, localCluster: bool): (r: bool)
    ensures push.Some? ==> r == push.value
    ensures push.None? ==> (r <==> !localCluster)
  {
    match push
    case Some(p) => p
    case None => !localCluster
  }

  /**
   * `NewBuilder`: no builder when the docker client cannot be created (the
   * error wrapped); otherwise the context, whether it is a local cluster, and
   * whether to push.
   */
  function NewBuilder(push: Option<bool>, kubeContext: string, clientError: Option<string>): (r: Result<Builder>)
    ensures r.Err? <==> clientError.Some?
    ensures r.Err? ==> r.error == Wrap("getting docker client", clientError.value)
    ensures r.Ok? ==> r.value.kubeContext == kubeContext
    ensures r.Ok? ==> (r.value.localCluster <==> kubeContext == "minikube" || kubeContext == "docker-for-desktop")
    ensures r.Ok? && push.Some? ==> r.value.pushImages == push.value
    ensures r.Ok? && push.None? ==> r.value.pushImages == !r.value.localCluster
  {
    match clientError
    case Some(e) => Err(Wrap("getting docker client", e))
    case None =>
      var localCluster := IsLocalCluster(kubeContext);
      Ok(Builder(kubeContext, localCluster, PushImages(push, localCluster)))
  }

  /** Without a `push` setting, images built for minikube are not pushed and those built for any other context are. */
  lemma DefaultPushFollowsContext(kubeContext: string)
    ensures var r := NewBuilder(None, kubeContext, None);
      r.Ok? && (r.value.pushImages <==> kubeContext != "minikube" && kubeContext != "docker-for-desktop")
  {
  }

  /**
   * `Labels`: the builder label `local`, and the docker API version
   * exactly when the daemon answered the version query.
   */
  function Labels(apiVersion: Result<string>): (r: map<string, string>)
    ensures "skaffold-builder" in r && r["skaffold-builder"] == "local"
    ensures apiVersion.Ok? <==> "docker-api-version" in r
    ensures apiVersion.Ok? ==> r["docker-api-version"] == apiVersion.value
    ensures r.Keys <= {"skaffold-builder", "docker-api-version"}
  {
    var labels := map["skaffold-builder" := "local"];
    match apiVersion
    case Ok(v) => labels["docker-api-version" := v]
    case Err(_) => labels
  }
}
