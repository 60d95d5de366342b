/**
 * Listing the source files of a Jib Maven artifact (jib/jib_maven.go): the
 * Maven arguments that ask the Jib plugin for them, and the wrapping of a
 * failure. Running Maven is a collaborator; its outcome is an input.
 */
module JibMaven {
  import opened Errors

  /** `JibMavenArtifact`: the module of a multi-module project, and the profile to activate; empty when unset. */
  datatype JibMavenArtifact = JibMavenArtifact(moduleName: string, profile: string)

  const Goal := "jib:_skaffold-files"

  /** The flags selecting the module: `--non-recursive` alone, or `--projects m --also-make`. */
  function ModuleFlags(m: string): (r: seq<string>)
    ensures m == "" ==> r == ["--non-recursive"]
    ensures m != "" ==> r == ["--projects", m, "--also-make"]
  {
    if m == "" then ["--non-recursive"] else ["--projects", m, "--also-make"]
  }

  /** The flags activating a profile: none for the empty profile. */
  function ProfileFlags(p: string): (r: seq<string>)
    ensures p == "" <==> r == []
    ensures p != "" ==> r == ["--activate-profiles", p]
  {
    if p != "" then ["--activate-profiles", p] else []
  }

  /** The arguments `getCommandMaven` gives Maven. */
  function MavenArgs(a: JibMavenArtifact): (r: seq<string>)
    ensures |r| >= 3 && r[0] == "--quiet"
  {
    ["--quiet"] + ModuleFlags(a.moduleName) + [Goal] + ProfileFlags(a.profile)
  }

  /**
   * The arguments start with `--quiet`, then the module flags, then the goal
   * right after them, then the profile flags, which end the list.
   */
  lemma MavenArgsLayout(a: JibMavenArtifact)
    ensures var r, n := MavenArgs(a), |ModuleFlags(a.moduleName)|;
      && r[0] == "--quiet"
      && (a.moduleName == "" ==> n == 1 && r[1] == "--non-recursive")
      && (a.moduleName != "" ==> n == 3 && r[1..4] == ["--projects", a.moduleName, "--also-make"])
      && r[n + 1] == Goal
      && (a.profile == "" ==> |r| == n + 2)
      && (a.profile != "" ==> |r| == n + 4 && r[n + 2..] == ["--activate-profiles", a.profile])
  {
    var r, n := MavenArgs(a), |ModuleFlags(a.moduleName)|;
    assert r[1..n + 1] == ModuleFlags(a.moduleName);
    assert r[n + 2..] == ProfileFlags(a.profile);
  }

  /** Reads the module and profile back from a Maven argument list, when it has the form `MavenArgs` gives. */
  function ParseMavenArgs(args: seq<string>): (r: Option<JibMavenArtifact>)
  {
    if |args| < 3 || args[0] != "--quiet" then None
    else
      var (m, rest) :=
        if args[1] == "--non-recursive" then (Some(""), args[2..])
        else if |args| >= 5 && args[1] == "--projects" && args[2] != "" && args[3] == "--also-make" then (Some(args[2]), args[4..])
        else (None, []);
      if m.None? || |rest| == 0 || rest[0] != Goal then None
      else if |rest| == 1 then Some(JibMavenArtifact(m.value, ""))
      else if |rest| == 3 && rest[1] == "--activate-profiles" && rest[2] != "" then Some(JibMavenArtifact(m.value, rest[2]))
      else None
  }

  /** The arguments determine the artifact's module and profile: reading them back gives the artifact. */
  lemma ParseMavenArgsRoundTrip(a: JibMavenArtifact)
    ensures ParseMavenArgs(MavenArgs(a)) == Some(a)
  {
    MavenArgsLayout(a);
    var r, n := MavenArgs(a), |ModuleFlags(a.moduleName)|;
    assert r[n + 1..][0] == Goal;
  }

  /** So two artifacts with the same arguments are the same artifact. */
  lemma MavenArgsInjective(a: JibMavenArtifact, b: JibMavenArtifact)
    requires MavenArgs(a) == MavenArgs(b)
    ensures a == b
  {
    ParseMavenArgsRoundTrip(a);
    ParseMavenArgsRoundTrip(b);
  }

  /** `GetDependenciesMaven`: the dependencies Maven lists, or its failure wrapped. */
  function GetDependenciesMaven(listed: Result<seq<string>>): (r: Result<seq<string>>)
    ensures listed.Ok? ==> r == listed
    ensures listed.Err? ==> r == Err(Wrap("getting jibMaven dependencies", listed.error))
  {
    match listed
    case Ok(deps) => Ok(deps)
    case Err(e) => Err(Wrap("getting jibMaven dependencies", e))
  }
}
