/**
 * Building a Jib Gradle artifact with the local builder
 * (build/local/jib_gradle.go): the Gradle task line, and the choice between
 * building into the docker daemon and pushing straight to a registry.
 * Gradle, the daemon and the registry are collaborators; their outcomes are
 * inputs, as are the random initial tag and the hashed image reference of a
 * daemon build.
 */
module JibGradle {
  import opened Errors
  import opened Strs

  /** `JibGradleArtifact`: the Gradle sub-project, empty for a single-project build. */
  datatype JibGradleArtifact = JibGradleArtifact(project: string)

  /** The Gradle task to run: `:task`, or `:project:task` in a multi-project build. */
  function GradleCommand(task: string, project: string): (r: string)
    ensures |r| > |task| && r[0] == ':' && HasSuffix(r, ":" + task)
  {
    var r := if project == "" then ":" + task else ":" + project + ":" + task;
    assert r[|r| - |":" + task|..] == ":" + task;
    r
  }

  /** `generateGradleArgs`: the Gradle task, then the image to build. */
  function GenerateGradleArgs(task: string, imageName: string, a: JibGradleArtifact): (r: seq<string>)
    ensures |r| == 2 && HasSuffix(r[0], ":" + task) && r[1] == "--image=" + imageName
  {
    [GradleCommand(task, a.project), "--image=" + imageName]
  }

  /** Without a project the Gradle task is addressed from the root: `:task`. */
  lemma RootProjectCommand(task: string, imageName: string)
    ensures GenerateGradleArgs(task, imageName, JibGradleArtifact(""))[0] == ":" + task
  {
  }

  /** With a project the Gradle task is addressed in it: `:project:task`. */
  lemma SubProjectCommand(task: string, imageName: string, project: string)
    requires project != ""
    ensures GenerateGradleArgs(task, imageName, JibGradleArtifact(project))[0] == ":" + project + ":" + task
  {
  }

  /** The command is the bare `:task` exactly when no project is set. */
  lemma BareCommandIffNoProject(task: string, project: string)
    ensures GradleCommand(task, project) == ":" + task <==> project == ""
  {
    if project != "" {
      assert |GradleCommand(task, project)| == |project| + |task| + 2;
    }
  }

  /** Two sample artifacts: no project and project `project`, building `image` with task `task`. */
  lemma GradleArgsSamples()
    ensures GenerateGradleArgs("task", "image", JibGradleArtifact("")) == [":task", "--image=image"]
    ensures GenerateGradleArgs("task", "image", JibGradleArtifact("project")) == [":project:task", "--image=image"]
  {
    RootProjectCommand("task", "image");
    assert ":" + "task" == ":task" && "--image=" + "image" == "--image=image";
    SubProjectCommand("task", "image", "project");
    assert ":" + "project" + ":" + "task" == ":project:task";
  }

  /** A Jib Gradle artifact: its image name and Gradle settings. */
  datatype Artifact = Artifact(imageName: string, jibGradle: JibGradleArtifact)

  /** What the collaborators answer. */
  datatype Outcomes = Outcomes(
    /** running Gradle in the workspace with the given arguments */
    run: (string, seq<string>) -> Option<string>,
    /** `LocalDocker.ImageID(ref)` */
    imageID: string -> Result<string>,
    /** `docker.RemoteDigest(ref)` */
    remoteDigest: string -> Result<string>)

  /** `runGradleCommand`: a failure is wrapped. */
  function RunGradle(workspace: string, args: seq<string>, o: Outcomes): (r: Option<string>)
    ensures r.None? <==> o.run(workspace, args).None?
    ensures r.Some? ==> r.value == Wrap("gradle build failed", o.run(workspace, args).value)
  {
    match o.run(workspace, args)
    case Some(e) => Some(Wrap("gradle build failed", e))
    case None => None
  }

  /** The image a registry build pushes: the artifact's image tagged with the initial tag. */
  function RegistryImage(imageName: string, initialTag: string): string
  {
    imageName + ":" + initialTag
  }

  /**
   * `buildJibGradle`: the digest of the built image and the Gradle arguments
   * run. Pushing builds `ImageName:initialTag` with the `jib` task and asks
   * the registry for its digest; otherwise `jibDockerBuild` builds `jibImageRef`
   * into the daemon, which is asked for its ID.
   */
  function BuildJibGradle(pushImages: bool, workspace: string, a: Artifact, initialTag: string, jibImageRef: string, o: Outcomes)
    : (r: (Result<string>, seq<string>))
    ensures pushImages ==> r.1 == GenerateGradleArgs("jib", RegistryImage(a.imageName, initialTag), a.jibGradle)
    ensures !pushImages ==> r.1 == GenerateGradleArgs("jibDockerBuild", jibImageRef, a.jibGradle)
    ensures RunGradle(workspace, r.1, o).Some? ==> r.0 == Err(RunGradle(workspace, r.1, o).value)
    ensures RunGradle(workspace, r.1, o).None? && pushImages ==> r.0 == o.remoteDigest(RegistryImage(a.imageName, initialTag))
    ensures RunGradle(workspace, r.1, o).None? && !pushImages ==> r.0 == o.imageID(jibImageRef)
  {
    if pushImages then BuildToRegistry(workspace, a, initialTag, o) else BuildToDocker(workspace, a.jibGradle, jibImageRef, o)
  }

  /** `buildJibGradleToDocker`. */
  function BuildToDocker(workspace: string, g: JibGradleArtifact, jibImageRef: string, o: Outcomes): (r: (Result<string>, seq<string>))
  {
    var args := GenerateGradleArgs("jibDockerBuild", jibImageRef, g);
    match RunGradle(workspace, args, o)
    case Some(e) => (Err(e), args)
    case None => (o.imageID(jibImageRef), args)
  }

  /** `buildJibGradleToRegistry`. */
  function BuildToRegistry(workspace: string, a: Artifact, initialTag: string, o: Outcomes): (r: (Result<string>, seq<string>))
  {
    var image := RegistryImage(a.imageName, initialTag);
    var args := GenerateGradleArgs("jib", image, a.jibGradle);
    match RunGradle(workspace, args, o)
    case Some(e) => (Err(e), args)
    case None => (o.remoteDigest(image), args)
  }

  /** A registry build names the image `ImageName:initialTag`, whatever the tag. */
  lemma RegistryImageNamesTag(a: Artifact, initialTag: string)
    ensures var img := RegistryImage(a.imageName, initialTag);
      && HasPrefix(img, a.imageName + ":") && img[|a.imageName| + 1..] == initialTag
  {
  }
}
