/** The artifact records shared by the builder, the runner, the cache and sync. */
module Artifacts {
  /** A configured artifact: its image name, build context directory and sync rules (pattern to destination). */
  datatype Artifact = Artifact(imageName: string, workspace: string, sync: map<string, string>)

  /** A build result: an image name and the tag it was built under. */
  datatype Built = Built(imageName: string, tag: string)

  /** `%v` of a slice of build results: `[{name tag} {name tag}]`. */
  function FormatBuilds(builds: seq<Built>): string
  {
    "[" + FormatBuildList(builds) + "]"
  }

  function FormatBuildList(builds: seq<Built>): string
  {
    if |builds| == 0 then ""
    else
      var head := "{" + builds[0].imageName + " " + builds[0].tag + "}";
      if |builds| == 1 then head else head + " " + FormatBuildList(builds[1..])
  }

  /** The image names of a list of build results, in order. */
  function Names(builds: seq<Built>): (r: seq<string>)
    ensures |r| == |builds| && forall i :: 0 <= i < |r| ==> r[i] == builds[i].imageName
  {
    seq(|builds|, i requires 0 <= i < |builds| => builds[i].imageName)
  }

  function Tags(builds: seq<Built>): (r: seq<string>)
    ensures |r| == |builds| && forall i :: 0 <= i < |r| ==> r[i] == builds[i].tag
  {
    seq(|builds|, i requires 0 <= i < |builds| => builds[i].tag)
  }
}
