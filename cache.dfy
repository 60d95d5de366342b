/**
 * The artifact cache of cache.go: whether a cache is used at all, where its
 * file lives, and the invalidation of the in-memory set of valid artifacts
 * when the watcher reports changed files. Reading the cache file, the home
 * directory, the docker daemon and the builder's dependency listing are
 * collaborators: their results are inputs.
 */
module Cache {
  import opened Errors
  import opened Artifacts

  /** One persisted cache entry (`ImageDetails`). */
  datatype ImageDetails = ImageDetails(digest: string, id: string)

  /** What `NewCache` reads from the options and the build configuration. */
  datatype CacheOptions = CacheOptions(
    cacheArtifacts: bool,
    cacheFile: string,
    localBuild: bool,
    push: Option<bool>,
    prune: bool)

  /** The cache `NewCache` returns: the shared empty `noCache`, or one backed by a file. */
  datatype CacheSetup =
    | NoCache
    | FileCache(
        cacheFile: string,
        artifactCache: map<string, ImageDetails>,
        validArtifacts: set<string>,
        useCache: bool,
        pushImages: bool,
        isLocalBuilder: bool,
        imageList: seq<string>,
        localCluster: bool,
        prune: bool)

  /**
   * `resolveCacheFile`: a non-empty path is used as given; otherwise the
   * default file under the home directory (`defaultFile(home)`). `verify` is
   * `util.VerifyOrCreateFile`.
   */
  function ResolveCacheFile(cacheFile: string, home: Result<string>, defaultFile: string -> string,
                            verify: string -> Option<string>): (r: Result<string>)
    ensures cacheFile != "" ==> (r.Ok? <==> verify(cacheFile).None?) && (r.Ok? ==> r.value == cacheFile)
    ensures cacheFile == "" && home.Err? ==> r == Err(Wrap("retrieving home directory", home.error))
    ensures cacheFile == "" && home.Ok? ==>
      (r.Ok? <==> verify(defaultFile(home.value)).None?) && (r.Ok? ==> r.value == defaultFile(home.value))
    ensures r.Err? && cacheFile != "" ==> r.error == verify(cacheFile).value
  {
    if cacheFile != "" then
      if verify(cacheFile).Some? then Err(verify(cacheFile).value) else Ok(cacheFile)
    else if home.Err? then Err(Wrap("retrieving home directory", home.error))
    else
      var f := defaultFile(home.value);
      if verify(f).Some? then Err(verify(f).value) else Ok(f)
  }

  /**
   * `NewCache`. Caching off, an unresolvable cache file or an unreadable one
   * all give `noCache`. A failing docker client only leaves the image list
   * empty. Images are pushed only when the local build says `push: true`.
   * `read` is the cache file's contents as parsed; `client` the daemon's image
   * list or its error; `localCluster` what the cluster probe answered.
   */
  function NewCache(opts: CacheOptions, home: Result<string>, defaultFile: string -> string, verify: string -> Option<string>,
                    read: string -> Result<map<string, ImageDetails>>, client: Result<seq<string>>, localCluster: bool): (r: CacheSetup)
    ensures !opts.cacheArtifacts ==> r == NoCache
    ensures r.FileCache? <==> (opts.cacheArtifacts && ResolveCacheFile(opts.cacheFile, home, defaultFile, verify).Ok?
                               && read(ResolveCacheFile(opts.cacheFile, home, defaultFile, verify).value).Ok?)
    ensures r.FileCache? ==>
      r.cacheFile == ResolveCacheFile(opts.cacheFile, home, defaultFile, verify).value
      && r.artifactCache == read(r.cacheFile).value
      && r.validArtifacts == {} && r.useCache
      && (r.pushImages <==> opts.localBuild && opts.push == Some(true))
      && r.isLocalBuilder == opts.localBuild
      && (client.Err? ==> r.imageList == [])
  {
    if !opts.cacheArtifacts then NoCache
    else
      var cf := ResolveCacheFile(opts.cacheFile, home, defaultFile, verify);
      if cf.Err? then NoCache
      else
        var cache := read(cf.value);
        if cache.Err? then NoCache
        else
          var imageList := if client.Ok? then client.value else [];
          var pushImages := opts.localBuild && opts.push.Some? && opts.push.value;
          FileCache(cf.value, cache.value, {}, opts.cacheArtifacts, pushImages, opts.localBuild, imageList, localCluster, opts.prune)
  }

  /** The two lists share an element. */
  ghost predicate Shares(modifiedDeps: seq<string>, deps: seq<string>)
  {
    exists i, j :: 0 <= i < |modifiedDeps| && 0 <= j < |deps| && modifiedDeps[i] == deps[j]
  }

  /** `depModifed`: whether some modified file is one of the dependencies. */
  method DepModified(modifiedDeps: seq<string>, deps: seq<string>) returns (r: bool)
    ensures r <==> Shares(modifiedDeps, deps)
  {
    var i := 0;
    while i < |modifiedDeps|
      invariant 0 <= i <= |modifiedDeps|
      invariant forall i', j :: 0 <= i' < i && 0 <= j < |deps| ==> modifiedDeps[i'] != deps[j]
    {
      var j := 0;
      while j < |deps|
        invariant 0 <= j <= |deps|
        invariant forall j' :: 0 <= j' < j ==> modifiedDeps[i] != deps[j']
      {
        if modifiedDeps[i] == deps[j] {
          return true;
        }
        j := j + 1;
      }
      i := i + 1;
    }
    return false;
  }

  /** Sharing is symmetric, and nothing is shared with an empty list. */
  lemma SharesSymmetric(a: seq<string>, b: seq<string>)
    ensures Shares(a, b) <==> Shares(b, a)
    ensures |a| == 0 || |b| == 0 ==> !Shares(a, b)
  {
    if Shares(a, b) {
      var i, j :| 0 <= i < |a| && 0 <= j < |b| && a[i] == b[j];
      assert b[j] == a[i];
    }
    if Shares(b, a) {
      var i, j :| 0 <= i < |b| && 0 <= j < |a| && b[i] == a[j];
      assert a[j] == b[i];
    }
  }

  /** An artifact's cache entry is stale when its dependencies cannot be listed or include a modified file. */
  ghost predicate Stale(a: Artifact, modifiedDeps: seq<string>, deps: Artifact -> Result<seq<string>>)
  {
    deps(a).Err? || Shares(modifiedDeps, deps(a).value)
  }

  /** The names `HandleEvent` removes: valid artifacts of the configuration that are stale. */
  ghost function Invalidated(artifacts: seq<Artifact>, valid: set<string>, modifiedDeps: seq<string>,
                             deps: Artifact -> Result<seq<string>>): set<string>
  {
    set a | a in artifacts && a.imageName in valid && Stale(a, modifiedDeps, deps) :: a.imageName
  }

  class ArtifactCache {
    /** The configured artifacts. */
    const artifacts: seq<Artifact>
    /** The persisted entries, by dependency hash. */
    var artifactCache: map<string, ImageDetails>
    /** Names of the artifacts whose cached image is still valid. */
    var validArtifacts: set<string>

    constructor (artifacts: seq<Artifact>, artifactCache: map<string, ImageDetails>, validArtifacts: set<string>)
      ensures this.artifacts == artifacts && this.artifactCache == artifactCache && this.validArtifacts == validArtifacts
    {
      this.artifacts := artifacts;
      this.artifactCache := artifactCache;
      this.validArtifacts := validArtifacts;
    }

    /**
     * `HandleEvent`: on "change", every configured artifact still valid is
     * examined and dropped from the valid set when its dependency listing
     * fails or meets a modified file; any other event is ignored. The
     * persisted entries are never touched.
     */
    method HandleEvent(event: string, modifiedDeps: seq<string>, deps: Artifact -> Result<seq<string>>)
      modifies this`validArtifacts
      ensures event != "change" ==> validArtifacts == old(validArtifacts)
      ensures event == "change" ==> validArtifacts == old(validArtifacts) - Invalidated(artifacts, old(validArtifacts), modifiedDeps, deps)
    {
      if event != "change" {
        return;
      }
      var valid := validArtifacts;
      var i := 0;
      while i < |artifacts|
        invariant 0 <= i <= |artifacts|
        invariant valid == old(validArtifacts) - Invalidated(artifacts[..i], old(validArtifacts), modifiedDeps, deps)
      {
        var a := artifacts[i];
        assert artifacts[..i + 1] == artifacts[..i] + [a];
        if a.imageName in valid {
          var ds := deps(a);
          if ds.Err? {
            valid := valid - {a.imageName};
          }
          var modified := DepModified(modifiedDeps, if ds.Ok? then ds.value else []);
          if modified {
            valid := valid - {a.imageName};
          }
          SharesSymmetric(modifiedDeps, []);
        }
        i := i + 1;
      }
      assert artifacts[..|artifacts|] == artifacts;
      validArtifacts := valid;
    }
  }
}
