/**
 * The pre-built images builder (build/prebuilt.go): nothing is built; each
 * configured artifact is given the image reference named after it, and the
 * references no artifact asked for are reported after them. Reference
 * parsing (`docker.ParseReference`) is a collaborator that yields the base
 * name or an error.
 */
module Prebuilt {
  import opened Errors
  import opened Artifacts

  /** `tags[parsed.BaseName] = tag` for every image from `images` on, over `tags`; the first unparsable image aborts. */
  function IndexFrom(tags: map<string, string>, images: seq<string>, parse: string -> Result<string>): Result<map<string, string>>
    decreases |images|
  {
    if |images| == 0 then Ok(tags)
    else
      match parse(images[0])
      case Err(e) => Err(e)
      case Ok(base) => IndexFrom(tags[base := images[0]], images[1..], parse)
  }

  /** The images indexed by base name. */
  function Index(images: seq<string>, parse: string -> Result<string>): Result<map<string, string>>
  {
    IndexFrom(map[], images, parse)
  }

  /** Indexing fails exactly when some image does not parse, and then with the first such error. */
  lemma {:induction false} IndexFromErr(tags: map<string, string>, images: seq<string>, parse: string -> Result<string>)
    ensures IndexFrom(tags, images, parse).Err? <==> exists i :: 0 <= i < |images| && parse(images[i]).Err?
    ensures IndexFrom(tags, images, parse).Err? ==>
      exists i :: 0 <= i < |images| && parse(images[i]).Err? &&
        IndexFrom(tags, images, parse).error == parse(images[i]).error && forall j :: 0 <= j < i ==> parse(images[j]).Ok?
    decreases |images|
  {
    if |images| > 0 && parse(images[0]).Ok? {
      var base := parse(images[0]).value;
      IndexFromErr(tags[base := images[0]], images[1..], parse);
      assert forall i :: 1 <= i < |images| ==> images[i] == images[1..][i - 1];
      if IndexFrom(tags, images, parse).Err? {
        var i :| 0 <= i < |images[1..]| && parse(images[1..][i]).Err? &&
          IndexFrom(tags, images, parse).error == parse(images[1..][i]).error && forall j :: 0 <= j < i ==> parse(images[1..][j]).Ok?;
        assert forall j :: 0 <= j < i + 1 ==> parse(images[j]).Ok? by {
          forall j | 0 <= j < i + 1 ensures parse(images[j]).Ok? {
            if j > 0 { assert images[j] == images[1..][j - 1]; }
          }
        }
      } else {
        forall i | 0 <= i < |images| ensures parse(images[i]).Ok? {
          if i > 0 { assert images[i] == images[1..][i - 1]; }
        }
      }
    }
  }

  /** The index holds exactly the base names of the images, besides the starting entries. */
  lemma {:induction false} IndexFromKeys(tags: map<string, string>, images: seq<string>, parse: string -> Result<string>)
    requires IndexFrom(tags, images, parse).Ok?
    ensures forall k :: k in IndexFrom(tags, images, parse).value <==> k in tags || exists i :: 0 <= i < |images| && parse(images[i]) == Ok(k)
    decreases |images|
  {
    if |images| > 0 {
      var base := parse(images[0]).value;
      var tags' := tags[base := images[0]];
      IndexFromKeys(tags', images[1..], parse);
      var t := IndexFrom(tags, images, parse).value;
      forall k ensures k in t <==> k in tags || exists i :: 0 <= i < |images| && parse(images[i]) == Ok(k) {
        if k in t && k !in tags && k != base {
          var i :| 0 <= i < |images[1..]| && parse(images[1..][i]) == Ok(k);
          assert parse(images[i + 1]) == Ok(k);
        }
        if exists i :: 0 <= i < |images| && parse(images[i]) == Ok(k) {
          var i :| 0 <= i < |images| && parse(images[i]) == Ok(k);
          if i > 0 { assert parse(images[1..][i - 1]) == Ok(k); }
        }
      }
    }
  }

  /** A base name maps to the last image that parses to it. */
  lemma {:induction false} IndexFromLastWins(tags: map<string, string>, images: seq<string>, parse: string -> Result<string>, i: nat)
    requires IndexFrom(tags, images, parse).Ok?
    requires i < |images| && forall j :: i < j < |images| ==> parse(images[j]) != parse(images[i])
    ensures parse(images[i]).Ok? && parse(images[i]).value in IndexFrom(tags, images, parse).value
    ensures IndexFrom(tags, images, parse).value[parse(images[i]).value] == images[i]
    decreases |images|
  {
    var base := parse(images[0]).value;
    var tags' := tags[base := images[0]];
    if i > 0 {
      assert images[i] == images[1..][i - 1];
      assert forall j :: i - 1 < j < |images[1..]| ==> images[1..][j] == images[j + 1];
      IndexFromLastWins(tags', images[1..], parse, i - 1);
    } else {
      IndexFromStays(tags', images[1..], parse, base);
    }
  }

  /** An entry no later image overwrites stays as it is. */
  lemma {:induction false} IndexFromStays(tags: map<string, string>, images: seq<string>, parse: string -> Result<string>, k: string)
    requires IndexFrom(tags, images, parse).Ok? && k in tags
    requires forall j :: 0 <= j < |images| ==> parse(images[j]) != Ok(k)
    ensures k in IndexFrom(tags, images, parse).value && IndexFrom(tags, images, parse).value[k] == tags[k]
    decreases |images|
  {
    if |images| > 0 {
      assert forall j :: 0 <= j < |images[1..]| ==> images[1..][j] == images[j + 1];
      IndexFromStays(tags[parse(images[0]).value := images[0]], images[1..], parse, k);
    }
  }

  /**
   * The artifacts from `artifacts` on, each given the tag filed under its
   * image name, which is then removed; the tags left over come last.
   */
  function MatchFrom(tags: map<string, string>, artifacts: seq<Artifact>): Result<(seq<Built>, map<string, string>)>
    decreases |artifacts|
  {
    if |artifacts| == 0 then Ok(([], tags))
    else
      var name := artifacts[0].imageName;
      if name !in tags then Err("unable to find image tag for " + name)
      else
        match MatchFrom(tags - {name}, artifacts[1..])
        case Err(e) => Err(e)
        case Ok((builds, left)) => Ok(([Built(name, tags[name])] + builds, left))
  }

  /** The set of image names of some artifacts. */
  function NamesOf(artifacts: seq<Artifact>): set<string>
  {
    set i | 0 <= i < |artifacts| :: artifacts[i].imageName
  }

  /**
   * A successful match gives one result per artifact, in order, with the tag
   * filed under its name; the leftovers are the tags no artifact named.
   */
  lemma {:induction false} MatchFromContents(tags: map<string, string>, artifacts: seq<Artifact>)
    requires MatchFrom(tags, artifacts).Ok?
    ensures var (builds, left) := MatchFrom(tags, artifacts).value;
      && |builds| == |artifacts|
      && (forall i :: 0 <= i < |artifacts| ==>
            builds[i].imageName == artifacts[i].imageName && artifacts[i].imageName in tags && builds[i].tag == tags[artifacts[i].imageName])
      && left.Keys == tags.Keys - NamesOf(artifacts)
      && (forall k :: k in left ==> left[k] == tags[k])
    decreases |artifacts|
  {
    if |artifacts| > 0 {
      var name := artifacts[0].imageName;
      MatchFromContents(tags - {name}, artifacts[1..]);
      assert NamesOf(artifacts) == {name} + NamesOf(artifacts[1..]) by {
        forall x | x in NamesOf(artifacts) ensures x in {name} + NamesOf(artifacts[1..]) {
          var i :| 0 <= i < |artifacts| && artifacts[i].imageName == x;
          if i > 0 { assert artifacts[1..][i - 1] == artifacts[i]; }
        }
        forall x | x in NamesOf(artifacts[1..]) ensures x in NamesOf(artifacts) {
          var i :| 0 <= i < |artifacts[1..]| && artifacts[1..][i].imageName == x;
          assert artifacts[i + 1] == artifacts[1..][i];
        }
      }
      var (builds, left) := MatchFrom(tags - {name}, artifacts[1..]).value;
      forall i | 0 <= i < |artifacts|
        ensures ([Built(name, tags[name])] + builds)[i].imageName == artifacts[i].imageName
        ensures artifacts[i].imageName in tags && ([Built(name, tags[name])] + builds)[i].tag == tags[artifacts[i].imageName]
      {
        if i > 0 { assert artifacts[i] == artifacts[1..][i - 1]; }
      }
    }
  }

  /** Matched names are removed, so two artifacts with the same image name fail the build. */
  lemma {:induction false} DuplicateNameFails(tags: map<string, string>, artifacts: seq<Artifact>, i: nat, j: nat)
    requires i < j < |artifacts| && artifacts[i].imageName == artifacts[j].imageName
    ensures MatchFrom(tags, artifacts).Err?
    decreases |artifacts|
  {
    var name := artifacts[0].imageName;
    if name in tags {
      if i == 0 {
        MissingNameFails(tags - {name}, artifacts[1..], j - 1);
      } else {
        DuplicateNameFails(tags - {name}, artifacts[1..], i - 1, j - 1);
      }
    }
  }

  /** An artifact whose image name has no tag fails the build. */
  lemma {:induction false} MissingNameFails(tags: map<string, string>, artifacts: seq<Artifact>, k: nat)
    requires k < |artifacts| && artifacts[k].imageName !in tags
    ensures MatchFrom(tags, artifacts).Err?
    decreases |artifacts|
  {
    if k > 0 && artifacts[0].imageName in tags {
      MissingNameFails(tags - {artifacts[0].imageName}, artifacts[1..], k - 1);
    }
  }

  /** The index, then the artifacts' matches and the leftover tags. */
  function BuildPlan(images: seq<string>, artifacts: seq<Artifact>, parse: string -> Result<string>): Result<(seq<Built>, map<string, string>)>
  {
    match Index(images, parse)
    case Err(e) => Err(e)
    case Ok(tags) => MatchFrom(tags, artifacts)
  }

  /** `s` lists the entries of `m`, each once, in some order. */
  ghost predicate Enumerates(s: seq<Built>, m: map<string, string>)
  {
    && |s| == |m.Keys|
    && (forall i :: 0 <= i < |s| ==> s[i].imageName in m && m[s[i].imageName] == s[i].tag)
    && (forall i, j :: 0 <= i < j < |s| ==> s[i].imageName != s[j].imageName)
    && (forall k :: k in m ==> exists i :: 0 <= i < |s| && s[i].imageName == k)
  }

  /** The result of a build: `|artifacts|` matches, then one entry per base name no artifact asked for. */
  lemma BuildLength(images: seq<string>, artifacts: seq<Artifact>, parse: string -> Result<string>, r: seq<Built>)
    requires BuildPlan(images, artifacts, parse).Ok?
    requires var (builds, left) := BuildPlan(images, artifacts, parse).value;
      |builds| <= |r| && r[..|builds|] == builds && Enumerates(r[|builds|..], left)
    ensures |r| == |artifacts| + |Index(images, parse).value.Keys - NamesOf(artifacts)|
  {
    MatchFromContents(Index(images, parse).value, artifacts);
  }

  /** The builder for a list of fully qualified image references. */
  class PrebuiltImagesBuilder {
    const images: seq<string>

    constructor (images: seq<string>)
      ensures this.images == images
    {
      this.images := images;
    }

    /** `Labels`: the builder label. */
    function Labels(): (r: map<string, string>)
      ensures r.Keys == {"skaffold-builder"} && r["skaffold-builder"] == "pre-built"
    {
      map["skaffold-builder" := "pre-built"]
    }

    /**
     * `Build`: index the images by base name, give each artifact in order
     * the tag for its image name, then append the unused tags.
     */
    method Build(artifacts: seq<Artifact>, parse: string -> Result<string>) returns (r: Result<seq<Built>>)
      ensures BuildPlan(images, artifacts, parse).Err? ==> r == Err(BuildPlan(images, artifacts, parse).error)
      ensures BuildPlan(images, artifacts, parse).Ok? ==> (r.Ok? &&
        var (builds, left) := BuildPlan(images, artifacts, parse).value;
        |builds| <= |r.value| && r.value[..|builds|] == builds && Enumerates(r.value[|builds|..], left))
    {
      var tags := IndexImages(images, parse);
      if tags.Err? {
        return Err(tags.error);
      }
      var matched := MatchArtifacts(tags.value, artifacts);
      if matched.Err? {
        return Err(matched.error);
      }
      var builds := AppendLeftovers(matched.value.0, matched.value.1);
      return Ok(builds);
    }
  }

  /** The first loop of `Build`: `tags[parsed.BaseName] = tag` for every image. */
  method IndexImages(images: seq<string>, parse: string -> Result<string>) returns (r: Result<map<string, string>>)
    ensures r == Index(images, parse)
  {
    var tags := map[];
    var i := 0;
    while i < |images|
      invariant 0 <= i <= |images|
      invariant Index(images, parse) == IndexFrom(tags, images[i..], parse)
    {
      assert images[i..][0] == images[i] && images[i..][1..] == images[i + 1..];
      var parsed := parse(images[i]);
      if parsed.Err? {
        return Err(parsed.error);
      }
      tags := tags[parsed.value := images[i]];
      i := i + 1;
    }
    assert images[i..] == [];
    return Ok(tags);
  }

  /** The second loop of `Build`: each artifact takes, and removes, the tag filed under its image name. */
  method MatchArtifacts(tags: map<string, string>, artifacts: seq<Artifact>) returns (r: Result<(seq<Built>, map<string, string>)>)
    ensures r == MatchFrom(tags, artifacts)
  {
    var left := tags;
    var builds := [];
    assert artifacts[0..] == artifacts;
    assert MatchFrom(tags, artifacts).Ok? ==> builds + MatchFrom(tags, artifacts).value.0 == MatchFrom(tags, artifacts).value.0;
    var j := 0;
    while j < |artifacts|
      invariant 0 <= j <= |artifacts|
      invariant MatchFrom(tags, artifacts) == (match MatchFrom(left, artifacts[j..])
        case Err(e) => Err(e)
        case Ok((bs, rest)) => Ok((builds + bs, rest)))
    {
      assert artifacts[j..][0] == artifacts[j] && artifacts[j..][1..] == artifacts[j + 1..];
      var name := artifacts[j].imageName;
      if name !in left {
        return Err("unable to find image tag for " + name);
      }
      var rest := MatchFrom(left - {name}, artifacts[j + 1..]);
      if rest.Ok? {
        assert builds + ([Built(name, left[name])] + rest.value.0) == (builds + [Built(name, left[name])]) + rest.value.0;
      }
      builds := builds + [Built(name, left[name])];
      left := left - {name};
      j := j + 1;
    }
    assert artifacts[j..] == [];
    assert builds + [] == builds;
    return Ok((builds, left));
  }

  /** Part way through listing `left`: `done` lists the entries no longer in `tags`, each once. */
  ghost predicate Listed(done: seq<Built>, tags: map<string, string>, left: map<string, string>)
  {
    && tags.Keys <= left.Keys && (forall k :: k in tags ==> tags[k] == left[k])
    && |done| + |tags.Keys| == |left.Keys|
    && (forall i :: 0 <= i < |done| ==> done[i].imageName in left && done[i].imageName !in tags && left[done[i].imageName] == done[i].tag)
    && (forall i, j :: 0 <= i < j < |done| ==> done[i].imageName != done[j].imageName)
    && (forall k :: k in left && k !in tags ==> exists i :: 0 <= i < |done| && done[i].imageName == k)
  }

  /** Moving one entry from `tags` to the end of `done` keeps the listing. */
  lemma ListedStep(done: seq<Built>, tags: map<string, string>, left: map<string, string>, image: string)
    requires Listed(done, tags, left) && image in tags
    ensures Listed(done + [Built(image, tags[image])], tags - {image}, left)
  {
    var done' := done + [Built(image, tags[image])];
    assert (tags - {image}).Keys == tags.Keys - {image};
    forall k | k in left && k !in tags - {image} ensures exists i :: 0 <= i < |done'| && done'[i].imageName == k {
      if k == image {
        assert done'[|done|].imageName == k;
      } else {
        var i :| 0 <= i < |done| && done[i].imageName == k;
        assert done'[i] == done[i];
      }
    }
  }

  /** The last loop of `Build`: every leftover tag appended, in an order the model leaves open. */
  method AppendLeftovers(builds: seq<Built>, left: map<string, string>) returns (r: seq<Built>)
    ensures |builds| <= |r| && r[..|builds|] == builds && Enumerates(r[|builds|..], left)
  {
    var done: seq<Built> := [];
    var tags := left;
    while tags != map[]
      invariant Listed(done, tags, left)
      decreases |tags.Keys|
    {
      var image :| image in tags;
      ListedStep(done, tags, left, image);
      done := done + [Built(image, tags[image])];
      tags := tags - {image};
    }
    assert tags.Keys == {};
    r := builds + done;
    assert r[..|builds|] == builds && r[|builds|..] == done;
  }
}
