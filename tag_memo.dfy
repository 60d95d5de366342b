/**
 * What the docker and bazel plugin builders share (build/docker/docker.go
 * and build/bazel/bazel.go define it twice, identically): the supported
 * execution environment, and the step after an image is built, which tags
 * the image by digest once and remembers the tag in the local builder's
 * `AlreadyTagged` map. The daemon, the registry and the tagger are
 * collaborators; their outcomes are inputs.
 */
module TagMemo {
  import opened Errors

  /** `build.Artifact` fields the step needs: the workspace and image name, and whether it is a Jib artifact. */
  datatype Artifact = Artifact(imageName: string, workspace: string, jib: bool)

  /** What each collaborator answers when asked. */
  datatype Outcomes = Outcomes(
    /** `tagger.GenerateFullyQualifiedImageName(workspace, {imageName, digest})` */
    generate: (string, string, string) -> Result<string>,
    /** `docker.AddTag(initial, new)` */
    addTag: (string, string) -> Option<string>,
    /** `LocalDocker.Tag(initial, new)` */
    tag: (string, string) -> Option<string>,
    /** `LocalDocker.Push(new)` */
    push: string -> Option<string>)

  /** The registry and daemon calls a retag makes, in order. */
  datatype Call = AddTag(from: string, to: string) | Tag(from: string, to: string) | Push(image: string)

  /** `Build`: only the local environment is supported. */
  function EnvironmentError(envName: string, builder: string): (r: Option<string>)
    ensures r.None? <==> envName == "local"
  {
    if envName == "local" then None
    else Some(envName + " is not a supported environment for builder " + builder)
  }

  /**
   * `retagAndPush`: a Jib image that is to be pushed is only tagged in the
   * registry; anything else is tagged in the daemon, then pushed if images
   * are pushed. Its error and the calls made.
   */
  function RetagAndPush(pushImages: bool, initial: string, newTag: string, a: Artifact, o: Outcomes): (r: (Option<string>, seq<Call>))
    ensures pushImages && a.jib ==> r.1 == [AddTag(initial, newTag)]
    ensures !(pushImages && a.jib) ==> |r.1| >= 1 && r.1[0] == Tag(initial, newTag) && |r.1| <= 2
    ensures !(pushImages && a.jib) ==> (r.1 == [Tag(initial, newTag), Push(newTag)] <==> pushImages && o.tag(initial, newTag).None?)
    ensures r.0.None? <==> forall i :: 0 <= i < |r.1| ==> CallSucceeds(r.1[i], o)
  {
    if pushImages && a.jib then
      match o.addTag(initial, newTag)
      case Some(e) =>
        assert !CallSucceeds([AddTag(initial, newTag)][0], o);
        (Some(Wrap("tagging image", e)), [AddTag(initial, newTag)])
      case None => (None, [AddTag(initial, newTag)])
    else
      match o.tag(initial, newTag)
      case Some(e) => (Some(e), [Tag(initial, newTag)])
      case None =>
        if pushImages then
          match o.push(newTag)
          case Some(e) =>
            assert !CallSucceeds([Tag(initial, newTag), Push(newTag)][1], o);
            (Some(Wrap("pushing", e)), [Tag(initial, newTag), Push(newTag)])
          case None => (None, [Tag(initial, newTag), Push(newTag)])
        else (None, [Tag(initial, newTag)])
  }

  predicate CallSucceeds(c: Call, o: Outcomes)
  {
    match c
    case AddTag(from, to) => o.addTag(from, to).None?
    case Tag(from, to) => o.tag(from, to).None?
    case Push(image) => o.push(image).None?
  }

  /** The tag of a build, the `AlreadyTagged` map afterwards, and the calls made to retag. */
  datatype Step = Step(tag: Result<string>, alreadyTagged: map<string, string>, calls: seq<Call>)

  /**
   * `buildArtifact`: after the build yields `digest`, a digest already
   * tagged returns the recorded tag; otherwise a tag is generated, the image
   * retagged, and only then is the tag recorded.
   */
  function TagStep(alreadyTagged: map<string, string>, pushImages: bool, a: Artifact, digest: Result<string>, o: Outcomes): Step
  {
    match digest
    case Err(e) => Step(Err(Wrap("build artifact", e)), alreadyTagged, [])
    case Ok(d) =>
      if d in alreadyTagged then Step(Ok(alreadyTagged[d]), alreadyTagged, [])
      else
        match o.generate(a.workspace, a.imageName, d)
        case Err(e) => Step(Err(Wrap("generating tag", e)), alreadyTagged, [])
        case Ok(t) =>
          var (err, calls) := RetagAndPush(pushImages, d, t, a, o);
          if err.Some? then Step(Err(Wrap("tagging", err.value)), alreadyTagged, calls)
          else Step(Ok(t), alreadyTagged[d := t], calls)
  }

  /** A digest already tagged gets its recorded tag back, with no call and no change. */
  lemma TaggedDigestReused(alreadyTagged: map<string, string>, pushImages: bool, a: Artifact, d: string, o: Outcomes)
    requires d in alreadyTagged
    ensures TagStep(alreadyTagged, pushImages, a, Ok(d), o) == Step(Ok(alreadyTagged[d]), alreadyTagged, [])
  {
  }

  /**
   * The map changes only by recording a new digest with the tag returned,
   * and only when every retag call succeeded; every earlier entry is kept.
   */
  lemma RecordedAfterRetag(alreadyTagged: map<string, string>, pushImages: bool, a: Artifact, digest: Result<string>, o: Outcomes)
    ensures var s := TagStep(alreadyTagged, pushImages, a, digest, o);
      s.alreadyTagged != alreadyTagged ==>
        (digest.Ok? && digest.value !in alreadyTagged && s.tag.Ok? && s.alreadyTagged == alreadyTagged[digest.value := s.tag.value]
         && |s.calls| > 0 && forall i :: 0 <= i < |s.calls| ==> CallSucceeds(s.calls[i], o))
    ensures var s := TagStep(alreadyTagged, pushImages, a, digest, o);
      s.tag.Err? ==> s.alreadyTagged == alreadyTagged
    ensures var s := TagStep(alreadyTagged, pushImages, a, digest, o);
      digest.Ok? && digest.value !in alreadyTagged && s.tag.Ok? ==> s.alreadyTagged == alreadyTagged[digest.value := s.tag.value]
  {
  }

  /** Whatever happens, the recorded tag of a digest is the one the step returns for it. */
  lemma TagStepConsistent(alreadyTagged: map<string, string>, pushImages: bool, a: Artifact, digest: Result<string>, o: Outcomes)
    ensures var s := TagStep(alreadyTagged, pushImages, a, digest, o);
      && alreadyTagged.Keys <= s.alreadyTagged.Keys
      && (forall k :: k in alreadyTagged ==> s.alreadyTagged[k] == alreadyTagged[k])
      && (s.tag.Ok? ==> digest.Ok? && digest.value in s.alreadyTagged && s.alreadyTagged[digest.value] == s.tag.value)
  {
  }

  /** `local.Builder`: the part the plugin builders use. */
  class LocalBuilder {
    const pushImages: bool
    var alreadyTagged: map<string, string>

    constructor (pushImages: bool)
      ensures this.pushImages == pushImages && alreadyTagged == map[]
    {
      this.pushImages := pushImages;
      alreadyTagged := map[];
    }

    /** The retag-and-record step, on the builder's own map. */
    method Record(a: Artifact, digest: Result<string>, o: Outcomes) returns (tag: Result<string>, calls: seq<Call>)
      modifies this`alreadyTagged
      ensures var s := TagStep(old(alreadyTagged), pushImages, a, digest, o);
        tag == s.tag && alreadyTagged == s.alreadyTagged && calls == s.calls
    {
      calls := [];
      if digest.Err? {
        return Err(Wrap("build artifact", digest.error)), calls;
      }
      var d := digest.value;
      if d in alreadyTagged {
        return Ok(alreadyTagged[d]), calls;
      }
      var t := o.generate(a.workspace, a.imageName, d);
      if t.Err? {
        return Err(Wrap("generating tag", t.error)), calls;
      }
      var retag := RetagAndPush(pushImages, d, t.value, a, o);
      calls := retag.1;
      if retag.0.Some? {
        return Err(Wrap("tagging", retag.0.value)), calls;
      }
      alreadyTagged := alreadyTagged[d := t.value];
      return Ok(t.value), calls;
    }
  }
}
