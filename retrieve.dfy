/**
 * The cache-aware build of retrieve.go: each artifact's cache lookup is
 * turned into "build it" or "already built under this tag", the artifacts to
 * build are built and tested, and the new images are recorded in the cache.
 * The lookup, tagging, pushing, the docker client and the build itself are
 * collaborators: their outcomes are inputs.
 */
module Retrieve {
  import opened Errors
  import opened Artifacts
  import Cache

  /** The result of looking an artifact up in the cache; the outcome of its Tag/Push is carried along. */
  datatype CacheDetails =
    | Failed(err: string)
    | NeedsBuilding(hash: string)
    | NeedsTagging(hash: string, tagErr: Option<string>)
    | NeedsPushing(hash: string, pushErr: Option<string>)
    | Found(hash: string)

  /** What the cache check produced: the hash of each artifact to build, those artifacts, and the images already built. */
  datatype Plan = Plan(hashByName: map<string, string>, needToBuild: seq<Artifact>, alreadyBuilt: seq<Built>)

  const EmptyPlan := Plan(map[], [], [])

  /** A Go map read: a missing key gives the zero value. */
  function Lookup(m: map<string, string>, k: string): string
  {
    if k in m then m[k] else ""
  }

  function EntryAt(cache: map<string, Cache.ImageDetails>, hash: string): Cache.ImageDetails
  {
    if hash in cache then cache[hash] else Cache.ImageDetails("", "")
  }

  /** The unique tag of an image found in the cache: its image ID locally, else the tag pinned to the cached digest. */
  function UniqueTag(local: bool, cache: map<string, Cache.ImageDetails>, tags: map<string, string>,
                     a: Artifact, hash: string, tagWithImageID: (string, string) -> Result<string>): (r: Result<string>)
    ensures local ==> r == tagWithImageID(a.imageName, EntryAt(cache, hash).id)
    ensures !local ==> r == Ok(Lookup(tags, a.imageName) + "@" + EntryAt(cache, hash).digest)
  {
    var entry := EntryAt(cache, hash);
    if local then tagWithImageID(a.imageName, entry.id)
    else Ok(Lookup(tags, a.imageName) + "@" + entry.digest)
  }

  /** Whether the lookup says the artifact must be built. */
  predicate Rebuild(d: CacheDetails)
  {
    d.Failed? || d.NeedsBuilding?
  }

  /**
   * One artifact of the cache check: a failed lookup or a miss puts it on
   * the build list (a miss also records its hash); a failed tag or push, or a
   * failing image-ID tag, is the check's error; otherwise it is already built
   * under its unique tag.
   */
  function Step(acc: Plan, a: Artifact, d: CacheDetails, local: bool, cache: map<string, Cache.ImageDetails>,
                tags: map<string, string>, tagWithImageID: (string, string) -> Result<string>): (r: Result<Plan>)
    ensures r.Err? <==> ActionFailed(d) || (!Rebuild(d) && UniqueTag(local, cache, tags, a, d.hash, tagWithImageID).Err?)
    ensures r.Ok? && Rebuild(d) ==>
      r.value.needToBuild == acc.needToBuild + [a] && r.value.alreadyBuilt == acc.alreadyBuilt
      && r.value.hashByName == (if d.NeedsBuilding? then acc.hashByName[a.imageName := d.hash] else acc.hashByName)
    ensures r.Ok? && !Rebuild(d) ==>
      r.value == acc.(alreadyBuilt := acc.alreadyBuilt + [Built(a.imageName, UniqueTag(local, cache, tags, a, d.hash, tagWithImageID).value)])
  {
    match d
    case Failed(_) => Ok(acc.(needToBuild := acc.needToBuild + [a]))
    case NeedsBuilding(h) => Ok(acc.(hashByName := acc.hashByName[a.imageName := h], needToBuild := acc.needToBuild + [a]))
    case NeedsTagging(h, e) =>
      if e.Some? then Err(Wrap("tagging image", e.value)) else Reuse(acc, a, h, local, cache, tags, tagWithImageID)
    case NeedsPushing(h, e) =>
      if e.Some? then Err(Wrap("pushing image", e.value)) else Reuse(acc, a, h, local, cache, tags, tagWithImageID)
    case Found(h) => Reuse(acc, a, h, local, cache, tags, tagWithImageID)
  }

  /** An artifact already built: record it under its unique tag. */
  function Reuse(acc: Plan, a: Artifact, h: string, local: bool, cache: map<string, Cache.ImageDetails>,
                 tags: map<string, string>, tagWithImageID: (string, string) -> Result<string>): Result<Plan>
  {
    var t := UniqueTag(local, cache, tags, a, h, tagWithImageID);
    if t.Err? then Err(t.error) else Ok(acc.(alreadyBuilt := acc.alreadyBuilt + [Built(a.imageName, t.value)]))
  }

  /** The cache check over the remaining artifacts and their lookups, from the plan so far; the first error stops it. */
  function PlanFrom(artifacts: seq<Artifact>, results: seq<CacheDetails>, local: bool, cache: map<string, Cache.ImageDetails>,
                    tags: map<string, string>, tagWithImageID: (string, string) -> Result<string>, acc: Plan): Result<Plan>
    requires |results| == |artifacts|
    decreases |artifacts|
  {
    if |artifacts| == 0 then Ok(acc)
    else
      var s := Step(acc, artifacts[0], results[0], local, cache, tags, tagWithImageID);
      if s.Err? then s else PlanFrom(artifacts[1..], results[1..], local, cache, tags, tagWithImageID, s.value)
  }

  /** The image names of a list of artifacts, in order. */
  function ImageNames(artifacts: seq<Artifact>): seq<string>
  {
    if |artifacts| == 0 then [] else [artifacts[0].imageName] + ImageNames(artifacts[1..])
  }

  /** The artifacts whose lookup says "build", in order: an independent statement of the build list. */
  function ToBuild(artifacts: seq<Artifact>, results: seq<CacheDetails>): seq<Artifact>
    requires |results| == |artifacts|
  {
    if |artifacts| == 0 then []
    else (if Rebuild(results[0]) then [artifacts[0]] else []) + ToBuild(artifacts[1..], results[1..])
  }

  /** The names of the artifacts whose lookup says "already there". */
  function Reused(artifacts: seq<Artifact>, results: seq<CacheDetails>): seq<string>
    requires |results| == |artifacts|
  {
    if |artifacts| == 0 then []
    else (if Rebuild(results[0]) then [] else [artifacts[0].imageName]) + Reused(artifacts[1..], results[1..])
  }

  /** A lookup's tag or push failed. */
  predicate ActionFailed(d: CacheDetails)
  {
    (d.NeedsTagging? && d.tagErr.Some?) || (d.NeedsPushing? && d.pushErr.Some?)
  }

  /** The names of the artifacts whose lookup was a miss: the ones whose hash is recorded. */
  function Missed(artifacts: seq<Artifact>, results: seq<CacheDetails>): set<string>
    requires |results| == |artifacts|
  {
    if |artifacts| == 0 then {}
    else (if results[0].NeedsBuilding? then {artifacts[0].imageName} else {}) + Missed(artifacts[1..], results[1..])
  }

  /**
   * A successful check puts every artifact in exactly one list, in order:
   * the build list gets the failed lookups and the misses, the built list the
   * others; the hashes recorded are those of the misses; and no tag or push
   * failed.
   */
  lemma {:induction false} PlanPartitions(artifacts: seq<Artifact>, results: seq<CacheDetails>, local: bool,
      cache: map<string, Cache.ImageDetails>, tags: map<string, string>,
      tagWithImageID: (string, string) -> Result<string>, acc: Plan)
    requires |results| == |artifacts|
    requires PlanFrom(artifacts, results, local, cache, tags, tagWithImageID, acc).Ok?
    ensures var p := PlanFrom(artifacts, results, local, cache, tags, tagWithImageID, acc).value;
      && p.needToBuild == acc.needToBuild + ToBuild(artifacts, results)
      && Names(p.alreadyBuilt) == Names(acc.alreadyBuilt) + Reused(artifacts, results)
      && p.hashByName.Keys == acc.hashByName.Keys + Missed(artifacts, results)
      && (forall i :: 0 <= i < |artifacts| ==> !ActionFailed(results[i]))
  {
    PlanBuildList(artifacts, results, local, cache, tags, tagWithImageID, acc);
    PlanBuiltNames(artifacts, results, local, cache, tags, tagWithImageID, acc);
    PlanHashes(artifacts, results, local, cache, tags, tagWithImageID, acc);
    PlanNoActionFailed(artifacts, results, local, cache, tags, tagWithImageID, acc);
  }

  /** The build list of a successful check: the failed lookups and the misses, in order. */
  lemma {:induction false} PlanBuildList(artifacts: seq<Artifact>, results: seq<CacheDetails>, local: bool,
      cache: map<string, Cache.ImageDetails>, tags: map<string, string>,
      tagWithImageID: (string, string) -> Result<string>, acc: Plan)
    requires |results| == |artifacts|
    requires PlanFrom(artifacts, results, local, cache, tags, tagWithImageID, acc).Ok?
    ensures var p := PlanFrom(artifacts, results, local, cache, tags, tagWithImageID, acc).value;
      p.needToBuild == acc.needToBuild + ToBuild(artifacts, results)
    decreases |artifacts|
  {
    if |artifacts| == 0 {
      return;
    }
    var rest, rs := artifacts[1..], results[1..];
    var s := Step(acc, artifacts[0], results[0], local, cache, tags, tagWithImageID);
    assert PlanFrom(artifacts, results, local, cache, tags, tagWithImageID, acc) == PlanFrom(rest, rs, local, cache, tags, tagWithImageID, s.value);
    PlanBuildList(rest, rs, local, cache, tags, tagWithImageID, s.value);
    var b := if Rebuild(results[0]) then [artifacts[0]] else [];
    assert ToBuild(artifacts, results) == b + ToBuild(rest, rs);
    assert s.value.needToBuild == acc.needToBuild + b;
    assert acc.needToBuild + b + ToBuild(rest, rs) == acc.needToBuild + (b + ToBuild(rest, rs));
  }

  /** The built list of a successful check: the other artifacts, in order. */
  lemma {:induction false} PlanBuiltNames(artifacts: seq<Artifact>, results: seq<CacheDetails>, local: bool,
      cache: map<string, Cache.ImageDetails>, tags: map<string, string>,
      tagWithImageID: (string, string) -> Result<string>, acc: Plan)
    requires |results| == |artifacts|
    requires PlanFrom(artifacts, results, local, cache, tags, tagWithImageID, acc).Ok?
    ensures var p := PlanFrom(artifacts, results, local, cache, tags, tagWithImageID, acc).value;
      Names(p.alreadyBuilt) == Names(acc.alreadyBuilt) + Reused(artifacts, results)
    decreases |artifacts|
  {
    if |artifacts| == 0 {
      return;
    }
    var rest, rs := artifacts[1..], results[1..];
    var s := Step(acc, artifacts[0], results[0], local, cache, tags, tagWithImageID);
    assert PlanFrom(artifacts, results, local, cache, tags, tagWithImageID, acc) == PlanFrom(rest, rs, local, cache, tags, tagWithImageID, s.value);
    PlanBuiltNames(rest, rs, local, cache, tags, tagWithImageID, s.value);
    var n := if Rebuild(results[0]) then [] else [artifacts[0].imageName];
    assert Reused(artifacts, results) == n + Reused(rest, rs);
    assert Names(s.value.alreadyBuilt) == Names(acc.alreadyBuilt) + n;
    assert Names(acc.alreadyBuilt) + n + Reused(rest, rs) == Names(acc.alreadyBuilt) + (n + Reused(rest, rs));
  }

  /** The hashes a successful check records: those of the misses. */
  lemma {:induction false} PlanHashes(artifacts: seq<Artifact>, results: seq<CacheDetails>, local: bool,
      cache: map<string, Cache.ImageDetails>, tags: map<string, string>,
      tagWithImageID: (string, string) -> Result<string>, acc: Plan)
    requires |results| == |artifacts|
    requires PlanFrom(artifacts, results, local, cache, tags, tagWithImageID, acc).Ok?
    ensures var p := PlanFrom(artifacts, results, local, cache, tags, tagWithImageID, acc).value;
      p.hashByName.Keys == acc.hashByName.Keys + Missed(artifacts, results)
    decreases |artifacts|
  {
    if |artifacts| == 0 {
      return;
    }
    var rest, rs := artifacts[1..], results[1..];
    var s := Step(acc, artifacts[0], results[0], local, cache, tags, tagWithImageID);
    assert PlanFrom(artifacts, results, local, cache, tags, tagWithImageID, acc) == PlanFrom(rest, rs, local, cache, tags, tagWithImageID, s.value);
    PlanHashes(rest, rs, local, cache, tags, tagWithImageID, s.value);
  }

  /** In a successful check no tag or push failed. */
  lemma {:induction false} PlanNoActionFailed(artifacts: seq<Artifact>, results: seq<CacheDetails>, local: bool,
      cache: map<string, Cache.ImageDetails>, tags: map<string, string>,
      tagWithImageID: (string, string) -> Result<string>, acc: Plan)
    requires |results| == |artifacts|
    requires PlanFrom(artifacts, results, local, cache, tags, tagWithImageID, acc).Ok?
    ensures var p := PlanFrom(artifacts, results, local, cache, tags, tagWithImageID, acc).value;
      forall i :: 0 <= i < |artifacts| ==> !ActionFailed(results[i])
    decreases |artifacts|
  {
    if |artifacts| == 0 {
      return;
    }
    var rest, rs := artifacts[1..], results[1..];
    var s := Step(acc, artifacts[0], results[0], local, cache, tags, tagWithImageID);
    assert PlanFrom(artifacts, results, local, cache, tags, tagWithImageID, acc) == PlanFrom(rest, rs, local, cache, tags, tagWithImageID, s.value);
    PlanNoActionFailed(rest, rs, local, cache, tags, tagWithImageID, s.value);
    forall i | 0 < i < |artifacts| ensures results[i] == rs[i - 1] { }
  }

  /** The check fails exactly when some artifact's tag, push or image-ID tag fails. */
  lemma {:induction false} PlanFailsOnlyOnAction(artifacts: seq<Artifact>, results: seq<CacheDetails>, local: bool,
                                                 cache: map<string, Cache.ImageDetails>, tags: map<string, string>,
                                                 tagWithImageID: (string, string) -> Result<string>, acc: Plan)
    requires |results| == |artifacts|
    ensures PlanFrom(artifacts, results, local, cache, tags, tagWithImageID, acc).Err? <==>
      exists i :: 0 <= i < |artifacts| && (ActionFailed(results[i])
        || (!Rebuild(results[i]) && UniqueTag(local, cache, tags, artifacts[i], results[i].hash, tagWithImageID).Err?))
    decreases |artifacts|
  {
    if |artifacts| == 0 {
      return;
    }
    var a, rest, rs := artifacts[0], artifacts[1..], results[1..];
    var s := Step(acc, a, results[0], local, cache, tags, tagWithImageID);
    if s.Err? {
      return;
    }
    PlanFailsOnlyOnAction(rest, rs, local, cache, tags, tagWithImageID, s.value);
    forall i | 0 < i < |artifacts| ensures artifacts[i] == rest[i - 1] && results[i] == rs[i - 1] { }
  }

  /** The cache entry recorded for one newly built image: its digest (remote only) and image ID. */
  function EntryFor(b: Built, local: bool, parseDigest: string -> Result<string>, imageID: string -> Result<string>): (r: Result<Cache.ImageDetails>)
    ensures r.Ok? <==> (local || parseDigest(b.tag).Ok?) && imageID(b.tag).Ok?
    ensures !local && parseDigest(b.tag).Err? ==> r == Err(Wrap("parsing reference " + b.tag, parseDigest(b.tag).error))
    ensures r.Ok? ==> r.value.id == imageID(b.tag).value && r.value.digest == (if local then "" else parseDigest(b.tag).value)
  {
    if !local && parseDigest(b.tag).Err? then Err(Wrap("parsing reference " + b.tag, parseDigest(b.tag).error))
    else
      var digest := if local then "" else parseDigest(b.tag).value;
      var id := imageID(b.tag);
      if id.Err? then Err(id.error) else Ok(Cache.ImageDetails(digest, id.value))
  }

  /** What `addArtifacts` leaves behind: the cache as updated so far, and the error that stopped it, if any. */
  datatype Added = Added(cache: map<string, Cache.ImageDetails>, err: Option<string>)

  /** `addArtifacts` from the given cache: each image in turn is recorded under its hash until one fails. */
  function AddFrom(bRes: seq<Built>, hashByName: map<string, string>, local: bool, parseDigest: string -> Result<string>,
                   imageID: string -> Result<string>, cache: map<string, Cache.ImageDetails>): Added
    decreases |bRes|
  {
    if |bRes| == 0 then Added(cache, None)
    else
      var e := EntryFor(bRes[0], local, parseDigest, imageID);
      if e.Err? then Added(cache, Some(e.error))
      else AddFrom(bRes[1..], hashByName, local, parseDigest, imageID, cache[Lookup(hashByName, bRes[0].imageName) := e.value])
  }

  /**
   * Recording stops exactly when some image's entry cannot be formed; only
   * the hashes of the built images are written, and when nothing failed each
   * of them is written.
   */
  lemma {:induction false} AddFromWrites(bRes: seq<Built>, hashByName: map<string, string>, local: bool,
      parseDigest: string -> Result<string>, imageID: string -> Result<string>,
      cache: map<string, Cache.ImageDetails>)
    ensures var r := AddFrom(bRes, hashByName, local, parseDigest, imageID, cache);
      && (r.err.Some? <==> exists i :: 0 <= i < |bRes| && EntryFor(bRes[i], local, parseDigest, imageID).Err?)
      && (forall k :: k in cache && k !in Hashes(bRes, hashByName) ==> k in r.cache && r.cache[k] == cache[k])
      && r.cache.Keys <= cache.Keys + Hashes(bRes, hashByName)
      && (r.err.None? ==> r.cache.Keys == cache.Keys + Hashes(bRes, hashByName))
  {
    AddFromStops(bRes, hashByName, local, parseDigest, imageID, cache);
    AddFromKeys(bRes, hashByName, local, parseDigest, imageID, cache);
  }

  /** Recording stops exactly when some image's entry cannot be formed. */
  lemma {:induction false} AddFromStops(bRes: seq<Built>, hashByName: map<string, string>, local: bool,
      parseDigest: string -> Result<string>, imageID: string -> Result<string>,
      cache: map<string, Cache.ImageDetails>)
    ensures AddFrom(bRes, hashByName, local, parseDigest, imageID, cache).err.Some? <==>
      exists i :: 0 <= i < |bRes| && EntryFor(bRes[i], local, parseDigest, imageID).Err?
    decreases |bRes|
  {
    if |bRes| > 0 && EntryFor(bRes[0], local, parseDigest, imageID).Ok? {
      var h := Lookup(hashByName, bRes[0].imageName);
      var e := EntryFor(bRes[0], local, parseDigest, imageID);
      AddFromStops(bRes[1..], hashByName, local, parseDigest, imageID, cache[h := e.value]);
      forall i | 0 < i < |bRes| ensures bRes[i] == bRes[1..][i - 1] { }
    }
  }

  /** Only the hashes of the built images are written, and when nothing failed each of them is. */
  lemma {:induction false} AddFromKeys(bRes: seq<Built>, hashByName: map<string, string>, local: bool,
      parseDigest: string -> Result<string>, imageID: string -> Result<string>,
      cache: map<string, Cache.ImageDetails>)
    ensures var r := AddFrom(bRes, hashByName, local, parseDigest, imageID, cache);
      && (forall k :: k in cache && k !in Hashes(bRes, hashByName) ==> k in r.cache && r.cache[k] == cache[k])
      && r.cache.Keys <= cache.Keys + Hashes(bRes, hashByName)
      && (r.err.None? ==> r.cache.Keys == cache.Keys + Hashes(bRes, hashByName))
    decreases |bRes|
  {
    if |bRes| == 0 {
      return;
    }
    var e := EntryFor(bRes[0], local, parseDigest, imageID);
    var h := Lookup(hashByName, bRes[0].imageName);
    assert Hashes(bRes, hashByName) == {h} + Hashes(bRes[1..], hashByName);
    if e.Ok? {
      AddFromKeys(bRes[1..], hashByName, local, parseDigest, imageID, cache[h := e.value]);
    }
  }

  /** The hashes the built images are recorded under. */
  function Hashes(bRes: seq<Built>, hashByName: map<string, string>): set<string>
  {
    set i | 0 <= i < |bRes| :: Lookup(hashByName, bRes[i].imageName)
  }

  /** The cache of retrieve.go (the lower-case `cache` of its revision): entries by hash, and whether images are local. */
  class RetrievingCache {
    var artifactCache: map<string, Cache.ImageDetails>
    const imagesAreLocal: bool

    constructor (artifactCache: map<string, Cache.ImageDetails>, imagesAreLocal: bool)
      ensures this.artifactCache == artifactCache && this.imagesAreLocal == imagesAreLocal
    {
      this.artifactCache := artifactCache;
      this.imagesAreLocal := imagesAreLocal;
    }

    /** The cache check loop of `Build`. */
    method CheckCache(artifacts: seq<Artifact>, results: seq<CacheDetails>, tags: map<string, string>,
                      tagWithImageID: (string, string) -> Result<string>) returns (r: Result<Plan>)
      requires |results| == |artifacts|
      ensures r == PlanFrom(artifacts, results, imagesAreLocal, artifactCache, tags, tagWithImageID, EmptyPlan)
    {
      var acc := EmptyPlan;
      var i := 0;
      while i < |artifacts|
        invariant 0 <= i <= |artifacts|
        invariant PlanFrom(artifacts[i..], results[i..], imagesAreLocal, artifactCache, tags, tagWithImageID, acc)
               == PlanFrom(artifacts, results, imagesAreLocal, artifactCache, tags, tagWithImageID, EmptyPlan)
      {
        var a := artifacts[i];
        var acc' := acc;
        match results[i] {
          case Failed(_) =>
            acc' := acc.(needToBuild := acc.needToBuild + [a]);
          case NeedsBuilding(h) =>
            acc' := acc.(hashByName := acc.hashByName[a.imageName := h], needToBuild := acc.needToBuild + [a]);
          case NeedsTagging(h, e) =>
            if e.Some? {
              return Err(Wrap("tagging image", e.value));
            }
          case NeedsPushing(h, e) =>
            if e.Some? {
              return Err(Wrap("pushing image", e.value));
            }
          case Found(h) =>
        }
        if !Rebuild(results[i]) {
          var t := UniqueTag(imagesAreLocal, artifactCache, tags, a, results[i].hash, tagWithImageID);
          if t.Err? {
            return Err(t.error);
          }
          acc' := acc.(alreadyBuilt := acc.alreadyBuilt + [Built(a.imageName, t.value)]);
        }
        assert Step(acc, a, results[i], imagesAreLocal, artifactCache, tags, tagWithImageID) == Ok(acc');
        acc := acc';
        assert artifacts[i..][1..] == artifacts[i + 1..] && results[i..][1..] == results[i + 1..];
        i := i + 1;
      }
      return Ok(acc);
    }

    /** `addArtifacts`: records each newly built image under its hash; the first failure stops it, earlier writes stay. */
    method AddArtifacts(bRes: seq<Built>, hashByName: map<string, string>, parseDigest: string -> Result<string>,
                        imageID: string -> Result<string>) returns (err: Option<string>)
      modifies this`artifactCache
      ensures Added(artifactCache, err) == AddFrom(bRes, hashByName, imagesAreLocal, parseDigest, imageID, old(artifactCache))
    {
      var i := 0;
      while i < |bRes|
        invariant 0 <= i <= |bRes|
        invariant AddFrom(bRes[i..], hashByName, imagesAreLocal, parseDigest, imageID, artifactCache)
               == AddFrom(bRes, hashByName, imagesAreLocal, parseDigest, imageID, old(artifactCache))
      {
        var a := bRes[i];
        var entry := Cache.ImageDetails("", "");
        if !imagesAreLocal {
          var ref := parseDigest(a.tag);
          if ref.Err? {
            return Some(Wrap("parsing reference " + a.tag, ref.error));
          }
          entry := entry.(digest := ref.value);
        }
        var id := imageID(a.tag);
        if id.Err? {
          return Some(id.error);
        }
        if id.value != "" {
          entry := entry.(id := id.value);
        }
        assert entry == EntryFor(a, imagesAreLocal, parseDigest, imageID).value;
        assert bRes[i..][1..] == bRes[i + 1..];
        artifactCache := artifactCache[Lookup(hashByName, a.imageName) := entry];
        i := i + 1;
      }
      return None;
    }

    /**
     * `Build`: cancellation while waiting for the lookup gives
     * `context.Canceled`; a failed cache check or build is the error;
     * otherwise the new images followed by the cached ones, whatever happens
     * when they are recorded in the cache. `lookup` is None when the context
     * was cancelled first; saving the cache file is not part of this model.
     */
    method Build(tags: map<string, string>, artifacts: seq<Artifact>, lookup: Option<seq<CacheDetails>>,
                 tagWithImageID: (string, string) -> Result<string>, buildAndTest: seq<Artifact> -> Result<seq<Built>>,
                 parseDigest: string -> Result<string>, imageID: string -> Result<string>) returns (r: Result<seq<Built>>)
      requires lookup.Some? ==> |lookup.value| == |artifacts|
      modifies this`artifactCache
      ensures lookup.None? ==> r == Err(ContextCanceled) && artifactCache == old(artifactCache)
      ensures lookup.Some? ==>
        var plan := PlanFrom(artifacts, lookup.value, imagesAreLocal, old(artifactCache), tags, tagWithImageID, EmptyPlan);
        && (plan.Err? ==> r == Err(plan.error) && artifactCache == old(artifactCache))
        && (plan.Ok? && buildAndTest(plan.value.needToBuild).Err? ==>
              r == Err(Wrap("build failed", buildAndTest(plan.value.needToBuild).error)) && artifactCache == old(artifactCache))
        && (plan.Ok? && buildAndTest(plan.value.needToBuild).Ok? ==>
              var bRes := buildAndTest(plan.value.needToBuild).value;
              && r == Ok(bRes + plan.value.alreadyBuilt)
              && artifactCache == AddFrom(bRes, plan.value.hashByName, imagesAreLocal, parseDigest, imageID, old(artifactCache)).cache)
    {
      if lookup.None? {
        return Err(ContextCanceled);
      }
      var plan := CheckCache(artifacts, lookup.value, tags, tagWithImageID);
      if plan.Err? {
        return Err(plan.error);
      }
      var bRes := buildAndTest(plan.value.needToBuild);
      if bRes.Err? {
        return Err(Wrap("build failed", bRes.error));
      }
      var _ := AddArtifacts(bRes.value, plan.value.hashByName, parseDigest, imageID);
      return Ok(bRes.value + plan.value.alreadyBuilt);
    }
  }

  /**
   * When the build returns one image per artifact it was asked to build,
   * a successful cache-aware build returns every configured image exactly
   * once: the rebuilt ones first, then the cached ones.
   */
  lemma BuildReturnsEveryArtifact(artifacts: seq<Artifact>, results: seq<CacheDetails>, local: bool,
                                  cache: map<string, Cache.ImageDetails>, tags: map<string, string>,
                                  tagWithImageID: (string, string) -> Result<string>, bRes: seq<Built>)
    requires |results| == |artifacts|
    requires PlanFrom(artifacts, results, local, cache, tags, tagWithImageID, EmptyPlan).Ok?
    requires Names(bRes) == ImageNames(PlanFrom(artifacts, results, local, cache, tags, tagWithImageID, EmptyPlan).value.needToBuild)
    ensures var plan := PlanFrom(artifacts, results, local, cache, tags, tagWithImageID, EmptyPlan).value;
      multiset(Names(bRes + plan.alreadyBuilt)) == multiset(ImageNames(artifacts))
  {
    PlanPartitions(artifacts, results, local, cache, tags, tagWithImageID, EmptyPlan);
    var plan := PlanFrom(artifacts, results, local, cache, tags, tagWithImageID, EmptyPlan).value;
    var built, reused := ImageNames(ToBuild(artifacts, results)), Reused(artifacts, results);
    assert Names(bRes) == built by {
      assert plan.needToBuild == [] + ToBuild(artifacts, results);
      assert [] + ToBuild(artifacts, results) == ToBuild(artifacts, results);
    }
    assert Names(plan.alreadyBuilt) == reused by {
      assert Names(plan.alreadyBuilt) == Names([]) + reused;
    }
    SplitNames(artifacts, results);
    NamesAppend(bRes, plan.alreadyBuilt);
    assert multiset(built + reused) == multiset(built) + multiset(reused);
  }

  lemma NamesAppend(x: seq<Built>, y: seq<Built>)
    ensures Names(x + y) == Names(x) + Names(y)
  {
  }

  /** The build list and the reused list together hold every image name once. */
  lemma {:induction false} SplitNames(artifacts: seq<Artifact>, results: seq<CacheDetails>)
    requires |results| == |artifacts|
    ensures multiset(ImageNames(ToBuild(artifacts, results))) + multiset(Reused(artifacts, results)) == multiset(ImageNames(artifacts))
    decreases |artifacts|
  {
    if |artifacts| == 0 {
      return;
    }
    var rest, rs := artifacts[1..], results[1..];
    SplitNames(rest, rs);
    var n := artifacts[0].imageName;
    SplitStep(artifacts, results);
    if Rebuild(results[0]) {
      ConsBalance(n, ImageNames(ToBuild(rest, rs)), Reused(rest, rs), ImageNames(rest));
    } else {
      ConsBalance(n, Reused(rest, rs), ImageNames(ToBuild(rest, rs)), ImageNames(rest));
    }
  }

  /** One artifact's contribution to the build list, the reused list and the names. */
  lemma SplitStep(artifacts: seq<Artifact>, results: seq<CacheDetails>)
    requires |results| == |artifacts| > 0
    ensures ImageNames(artifacts) == [artifacts[0].imageName] + ImageNames(artifacts[1..])
    ensures Rebuild(results[0]) ==>
      ImageNames(ToBuild(artifacts, results)) == [artifacts[0].imageName] + ImageNames(ToBuild(artifacts[1..], results[1..]))
      && Reused(artifacts, results) == Reused(artifacts[1..], results[1..])
    ensures !Rebuild(results[0]) ==>
      ImageNames(ToBuild(artifacts, results)) == ImageNames(ToBuild(artifacts[1..], results[1..]))
      && Reused(artifacts, results) == [artifacts[0].imageName] + Reused(artifacts[1..], results[1..])
  {
    var tb := ToBuild(artifacts[1..], results[1..]);
    if Rebuild(results[0]) {
      assert ToBuild(artifacts, results) == [artifacts[0]] + tb;
      assert ([artifacts[0]] + tb)[1..] == tb;
    } else {
      assert ToBuild(artifacts, results) == tb;
    }
  }

  /** Adding one name to either side of a balanced split keeps it balanced. */
  lemma ConsBalance(n: string, x: seq<string>, y: seq<string>, z: seq<string>)
    requires multiset(x) + multiset(y) == multiset(z)
    ensures multiset([n] + x) + multiset(y) == multiset([n] + z)
    ensures multiset(y) + multiset([n] + x) == multiset([n] + z)
  {
    assert multiset([n] + x) == multiset{n} + multiset(x);
    assert multiset([n] + z) == multiset{n} + multiset(z);
  }

  lemma {:induction false} ImageNamesAppend(x: seq<Artifact>, y: seq<Artifact>)
    ensures ImageNames(x + y) == ImageNames(x) + ImageNames(y)
  {
    if |x| > 0 {
      assert (x + y)[1..] == x[1..] + y;
      ImageNamesAppend(x[1..], y);
    } else {
      assert x + y == y;
    }
  }
}
