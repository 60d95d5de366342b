# A Dafny model of skaffold's dev-loop bookkeeping

This project models the core of skaffold. skaffold is a command-line tool that watches an application's source files and rebuilds, tags, tests and redeploys its container images to Kubernetes whenever they change. The model covers the bookkeeping between skaffold's external collaborators:

- **Watcher.** The polling file watcher takes one component snapshot per tick and decides when to fire, with or without debounce.
- **Dev loop.** Each changed artifact is classified for sync or rebuild. A priority switch (reload, resync, rebuild, redeploy) then picks the one branch a pass runs.
- **Dev start-up.** `Dev` registers the watchers and does the first build-test-deploy.
- **Runner.** The runner chooses its builder, deployer and tagger. It generates tags, then runs build, cache, test and deploy, and keeps `hasBuilt`, `hasDeployed`, the image list and the namespaces.
- **Artifact cache.** The cache has its valid set, its partition into artifacts to build and artifacts already built, and its digest map.
- **Sync items.** Changed files are matched against an artifact's sync rules.
- **Port forwarding.** Three port-forwarding revisions keep tables of entries and a set of taken local ports.
- **Kubectl deployer.** Manifests are filtered and read, remote `ns:name` manifests are parsed, and a deploy runs its steps in a fixed order.
- **Builders.** The prebuilt-image, docker, bazel and Jib builders build their argument lists. The docker and bazel builders share one tag memo.
- **Configuration.** The two configuration schemas each choose a builder, deployer and tagger by name.
- **Small helpers.** Image references are extracted from Kubernetes YAML, and GitHub organisations from git remotes. There is also the plugin installer's manifest choice, the usage meter, and the inner-loop timings of the performance harness.

**Collaborators become inputs.** Each collaborator is replaced by what it answers:

- the docker daemon, kubectl, the registry and the builders;
- the tagger and the YAML codec;
- the path and glob library;
- the port allocator and the cluster's pod events.

An answer is an `Option`/`Result` value or a function-typed parameter. Errors are their messages. `errors.Wrap` is modelled as `context + ": " + cause`.

**Go maps.** Go's map iteration order is unspecified, so a method that walks a map picks its order with `:|`, or takes the order as a parameter. Where Go ranges over the same map again, as `intersect` does once per file, each range has an order of its own. The lemmas hold for every choice of orders.

**State.** Code that updates state in place is modelled as a class whose methods reassign its fields. Each such method is proved against a specification function, and the properties are proved about that function.

**Where the repository contradicts itself, the model follows the code:**

- `Deploy` is defined twice:
  - `Runner.SkaffoldRunner.DeployAndTail` models pkg/skaffold/runner/runner.go;
  - `Runner.SkaffoldRunner.Deploy` models pkg/skaffold/runner/deploy.go.
- `NewPortForwarder` has two signatures. Both revisions of the port forwarder are modelled, each in its own module.
- `sync.NewItem` takes three arguments but `Dev` passes four. The three-argument definition is modelled, and `Dev` takes its result as an input.

## Model

| member | source | states |
|---|---|---|
| Artifacts.Names | pkg/skaffold/runner/runner.go:255-258 | one image name per build result, in order |
| Artifacts.Tags | pkg/skaffold/runner/runner.go:223-225 | one tag per build result, in order |
| Strs.IndexOf | pkg/skaffold/deploy/kubectl.go:226-232 | no index exactly when the character does not occur; otherwise the position of its first occurrence |
| Strs.Split | pkg/skaffold/pipeline/gcb/github.go:90 | a split always has at least one piece |
| Strs.JoinSplit | pkg/skaffold/pipeline/gcb/github.go:90 | joining the pieces with the separator gives the input back: splitting loses nothing |
| Strs.SplitPiecesHaveNoSeparator | pkg/skaffold/pipeline/gcb/github.go:95 | no piece of a split contains the separator |
| Strs.SplitWithoutSeparator | pkg/skaffold/pipeline/gcb/github.go:95-98 | text without the separator splits into one piece, itself |
| Strs.SplitAtFirst | pkg/skaffold/pipeline/gcb/github.go:95-99 | the first piece is the text before the first separator, and the rest is the split of what follows it |
| Strs.FormatNat | pkg/skaffold/kubernetes/portforward/pod_forwarder.go:165 | a number prints as at least one decimal digit |
| Strs.DigitsValueOfFormat | pkg/skaffold/kubernetes/portforward/pod_forwarder.go:165 | reading back the printed digits of a number gives the number |
| Strs.AtoiFormatInt | pkg/skaffold/kubernetes/portforward/pod_forwarder.go:165 | `strconv.Atoi` reads back every 64-bit integer that `%d` prints |
| Strs.LeastExists | pkg/skaffold/build/docker/docker.go:165 | every non-empty set of strings has a least element in Go's string order |
| Runner.GetBuilder | pkg/skaffold/runner/runner.go:131-148 | the configured builder of highest priority (local, Google Cloud Build, cluster), provided its constructor succeeds; with none configured, "unknown builder for config"; any other error is the chosen constructor's |
| Runner.GetDeployer | pkg/skaffold/runner/runner.go:154-168 | the configured deployer of highest priority (helm, kubectl, kustomize); fails exactly when none is configured, with "unknown deployer for config" |
| Runner.GetTagger | pkg/skaffold/runner/runner.go:170-192 | a non-empty custom tag wins; otherwise the first tagger of the policy in the order env template, sha256, git commit, date-time, with its settings; with none, "unknown tagger for strategy"; any other error is the chosen constructor's |
| Runner.ImageTags | pkg/skaffold/runner/runner.go:279-320 | the tag-collection loop, consuming results in artifact order, computes exactly `TagsFrom` |
| Runner.TagsFromAllTagged | pkg/skaffold/runner/runner.go:295-316 | when every tag arrives, the map has one entry per image name, and an image listed several times keeps its last tag |
| Runner.TagsFromKeys | pkg/skaffold/runner/runner.go:295-316 | when every tag arrives, the keys are exactly the image names; entries for other names are kept |
| Runner.TagsFromLastWins | pkg/skaffold/runner/runner.go:297-316 | an image listed several times is filed with the tag of its last occurrence |
| Runner.TagsFromFirstFailure | pkg/skaffold/runner/runner.go:297-310 | the first artifact in list order without a tag decides the error: cancellation gives "context canceled", a tagger error is wrapped with "generating tag for" and the image name |
| Runner.TagsFrom | pkg/skaffold/runner/runner.go:295-316 | the tag-collection loop from a given artifact on: each tag is filed under its image name; a missing tag ends the loop with "context canceled" or the wrapped tagger error; specified by `Runner.TagsFromKeys`, `Runner.TagsFromLastWins` and `Runner.TagsFromFirstFailure` |
| Runner.MergeKeepsEveryImage | pkg/skaffold/runner/runner.go:228 | after the merge every new build is present, every previous build survives unless its image was rebuilt, and the kept previous builds come after the new ones |
| Runner.MergeWithPreviousBuilds | pkg/skaffold/runner/runner.go:228 | the merge after a build (its definition is not part of this model): the new builds, then each previous build whose image was not rebuilt; specified by `Runner.MergeKeepsEveryImage` |
| Runner.BuildAndTestOrder | pkg/skaffold/runner/runner.go:323-350 | a successful build-and-test had every tag, a successful cache lookup and build, and returns the fresh builds followed by the cached ones, on which the tests passed unless skipped |
| Runner.BuildAndTestResult | pkg/skaffold/runner/runner.go:323-350 | what `BuildAndTest` returns: the tag error, the cache error, the build error or the test error, in that order; otherwise the fresh builds followed by the cached ones; specified by `Runner.BuildAndTestOrder` |
| Runner.FirstUntagged | pkg/skaffold/runner/runner.go:297-310 | when some artifact has no tag, there is a first one |
| Runner.SkaffoldRunner.constructor | pkg/skaffold/runner/runner.go:115-128 | a new runner has built and deployed nothing and holds no builds, images or namespaces |
| Runner.SkaffoldRunner.BuildAndTest | pkg/skaffold/runner/runner.go:323-350 | `hasBuilt` is set exactly when the tags were generated, and the result is `BuildAndTestResult`: tag, cache and build failures abort wrapped, the fresh builds come before the cached ones, and the tests run unless skipped |
| Runner.SkaffoldRunner.DeployOnce | pkg/skaffold/runner/runner.go:353-357 | the deployer's error is returned and the runner counts as deployed whatever it answered |
| Runner.SkaffoldRunner.BuildTestDeploy | pkg/skaffold/runner/runner.go:216-235 | a build or test failure is returned and changes nothing but `hasBuilt`; otherwise every new tag joins the image list, the builds are merged with the previous ones and the merged list is deployed, its failure wrapped as "deploy failed" |
| Runner.SkaffoldRunner.DeployAndTail | pkg/skaffold/runner/runner.go:250-271 | a deploy error is returned without tailing; otherwise, when tailing, the logs of the deployed images are followed and a logger failure is wrapped as "starting logger" |
| Runner.SkaffoldRunner.Deploy | pkg/skaffold/runner/deploy.go:31-50 | on kind a load failure returns before the deployer runs; otherwise the runner counts as deployed, a deployer error is returned with the namespaces unchanged, and on success the namespaces are extended and the status check's result is returned when that option is on |
| Runner.SkaffoldRunner.PerformStatusCheck | pkg/skaffold/runner/deploy.go:52-63 | the status check's result when the option is on, no error otherwise |
| BazelBuild.TrimTarget | pkg/skaffold/build/bazel/bazel.go:172-179 | the result is the target with at most one leading `//` and then at most one leading `:` removed; a target starting with neither is unchanged |
| BazelBuild.BuildTarPath | pkg/skaffold/build/bazel/bazel.go:181-186 | `buildTarPath`: the trimmed target with its first colon turned into a path separator; specified by `BazelBuild.BuildTarPathReplacesFirstColon` |
| BazelBuild.ImageName | pkg/skaffold/build/bazel/bazel.go:188-193 | the image name of a target: the trimmed target without a further leading colon or the trailing `.tar`; specified by `BazelBuild.ImageNameOfTarball` |
| BazelBuild.BuildImageTag | pkg/skaffold/build/bazel/bazel.go:188-200 | `buildImageTag`: `bazel/<name>` when the name still has a colon, `bazel:<name>` otherwise; specified by `BazelBuild.BuildImageTagShape`, `BazelBuild.TagOfPlainName` and `BazelBuild.TagOfQualifiedName` |
| BazelBuild.Join | pkg/skaffold/build/bazel/bazel.go:144 | the tarball path under bazel-bin: the directory, a `/`, then the path, without the cleaning `filepath.Join` also does |
| BazelBuild.BuildTarPathReplacesFirstColon | pkg/skaffold/build/bazel/bazel.go:181-186 | the tarball path is the trimmed target with only its first colon turned into `/`; without a colon the trimmed target itself |
| BazelBuild.BuildImageTagShape | pkg/skaffold/build/bazel/bazel.go:188-200 | the image tag is `bazel` + separator + the image name, and the separator is `/` exactly when the name contains a colon, `:` otherwise |
| BazelBuild.TrimRootTarget | pkg/skaffold/build/bazel/bazel.go:172-179 | a root target `//:name` trims to `name` |
| BazelBuild.TrimPackageTarget | pkg/skaffold/build/bazel/bazel.go:172-179 | a package target `//pkg:name` trims to `pkg:name` |
| BazelBuild.ImageNameOfTarball | pkg/skaffold/build/bazel/bazel.go:188-193 | the trailing `.tar` is stripped from the image name |
| BazelBuild.TagOfPlainName | pkg/skaffold/build/bazel/bazel.go:195-199 | a colon-free image name is tagged `bazel:<name>` |
| BazelBuild.TagOfQualifiedName | pkg/skaffold/build/bazel/bazel.go:195-197 | an image name containing a colon is tagged `bazel/<name>` |
| BazelBuild.RootTarget | pkg/skaffold/build/bazel/bazel.go:181-200 | `//:name.tar` is found at `name.tar` and loaded as `bazel:name` |
| BazelBuild.PackageTargetPath | pkg/skaffold/build/bazel/bazel.go:181-186 | `//pkg:name.tar` is found at `pkg/name.tar` |
| BazelBuild.PackageTargetTag | pkg/skaffold/build/bazel/bazel.go:188-200 | `//pkg:name.tar` is loaded as `bazel/pkg:name` |
| BazelBuild.PackageTarPath | pkg/skaffold/build/bazel/bazel.go:183 | replacing the first colon of `pkg:name.tar` (colon-free `pkg`) gives `pkg/name.tar` |
| BazelBuild.ReplaceFirst | pkg/skaffold/build/bazel/bazel.go:183 | same length; unchanged when the character is absent; otherwise exactly the first occurrence is replaced |
| BazelBuild.BazelArgs | pkg/skaffold/build/bazel/bazel.go:122-124 | the arguments are `build`, then the artifact's args in order, then the target |
| BazelBuild.BuildLocal | pkg/skaffold/build/bazel/bazel.go:111-158 | a digest is returned only when the properties decode and bazel-bin is found, and it is the load of the tarball at bazel-bin joined with the tar path, under the image tag |
| BazelBuild.BuildEnvironment | pkg/skaffold/build/bazel/bazel.go:52-58 | the build proceeds exactly when the environment is `local`; otherwise the error names the environment and the `bazel` builder |
| BazelBuild.Builder.Labels | pkg/skaffold/build/bazel/bazel.go:45-50 | the only label is the builder label, with value `bazel` |
| BazelBuild.Builder.BuildArtifact | pkg/skaffold/build/bazel/bazel.go:60-88 | the returned tag, the calls made and the new `AlreadyTagged` map are those of the shared tag step applied to the outcome of `buildLocal` |
| Strs.SortedElements | pkg/skaffold/build/docker/docker.go:161-165 | the keys collected and sorted: exactly the elements of the set, each once, in strictly ascending byte order |
| DockerBuild.SortedKeys | pkg/skaffold/build/docker/docker.go:161-165 | every sorted key is a build-arg key |
| DockerBuild.KeyFlags | pkg/skaffold/build/docker/docker.go:167-176 | two flags per key |
| DockerBuild.CacheFlags | pkg/skaffold/build/docker/docker.go:178-180 | two flags per cache source |
| DockerBuild.BuildArgFlags | pkg/skaffold/build/docker/docker.go:158-187 | two flags per build arg, two per cache source, and two more exactly when a target is set |
| DockerBuild.KeyFlagsLayout | pkg/skaffold/build/docker/docker.go:167-176 | flag pair i is `--build-arg` and the i-th key's value |
| DockerBuild.CacheFlagsLayout | pkg/skaffold/build/docker/docker.go:178-180 | flag pair j is `--cache-from` and the j-th source |
| DockerBuild.BuildArgPairs | pkg/skaffold/build/docker/docker.go:161-176 | the flags open with one `--build-arg` pair per key in ascending key order, carrying the bare key when its value is nil and `k=v` otherwise |
| DockerBuild.CacheFromPairs | pkg/skaffold/build/docker/docker.go:178-180 | after the key pairs come the `--cache-from` pairs, one per source, in the configured order |
| DockerBuild.TargetLast | pkg/skaffold/build/docker/docker.go:182-184 | when a target is set, the last two flags are `--target` and the target |
| DockerBuild.TargetFlags | pkg/skaffold/build/docker/docker.go:182-184 | `--target` and the target when one is set, nothing otherwise; specified by `DockerBuild.TargetLast` |
| DockerBuild.KeyPartAt | pkg/skaffold/build/docker/docker.go:167-176 | the key pairs keep their positions at the front of a longer flag list |
| DockerBuild.CachePartAt | pkg/skaffold/build/docker/docker.go:178-180 | the cache pairs sit right after the key pairs |
| DockerBuild.FlagsIndex | pkg/skaffold/build/docker/docker.go:158-187 | where each of the three appended parts sits in the whole flag list |
| DockerBuild.ArgFlagForms | pkg/skaffold/build/docker/docker.go:170-175 | a nil value gives the bare key; a value `v` gives `k=v`, which differs from the bare key |
| DockerBuild.ArgFlag | pkg/skaffold/build/docker/docker.go:170-175 | the value of one `--build-arg`: the bare key for a nil value, `k=v` otherwise; specified by `DockerBuild.ArgFlagForms` |
| DockerBuild.GetBuildArgs | pkg/skaffold/build/docker/docker.go:158-187 | the slice accumulated by the loops is exactly the flag list specified above |
| DockerBuild.AppendKeyFlags | pkg/skaffold/build/docker/docker.go:167-176 | the loop over the sorted keys appends exactly the key pairs |
| DockerBuild.AppendCacheFlags | pkg/skaffold/build/docker/docker.go:178-180 | the loop over the cache sources appends exactly the cache pairs |
| DockerBuild.CLIArgs | pkg/skaffold/build/docker/docker.go:129-130 | the command line is `build <workspace> --file <dockerfile> -t <initial tag>` followed by the build-arg flags |
| DockerBuild.BuildLocal | pkg/skaffold/build/docker/docker.go:112-155 | a docker command line is run only on the CLI path after the contents decode, and it ends with the build-arg flags; a digest on the CLI path always comes with a command run; on the daemon path the digest is the daemon's build |
| DockerBuild.BuildEnvironment | pkg/skaffold/build/docker/docker.go:54-59 | the build proceeds exactly when the environment is `local`; otherwise the error names the environment and the `docker` builder |
| DockerBuild.Builder.Labels | pkg/skaffold/build/docker/docker.go:47-52 | the only label is the builder label, with value `docker` |
| DockerBuild.Builder.BuildArtifactLocal | pkg/skaffold/build/docker/docker.go:61-89 | the returned tag, the calls made and the new `AlreadyTagged` map are those of the shared tag step applied to the outcome of `buildLocal` |
| TagMemo.EnvironmentError | pkg/skaffold/build/docker/docker.go:54-59 | no error exactly when the environment is `local` |
| TagMemo.RetagAndPush | pkg/skaffold/build/docker/docker.go:91-110 | a Jib image that is pushed is only tagged in the registry; anything else is tagged in the daemon first and then pushed exactly when images are pushed and the tag succeeded; no error exactly when every call made succeeded |
| TagMemo.TagStep | pkg/skaffold/build/docker/docker.go:67-88 | the step after a build: a digest already tagged returns its recorded tag; otherwise a tag is generated, the image retagged, and only then the tag recorded; specified by `TagMemo.TaggedDigestReused`, `TagMemo.RecordedAfterRetag` and `TagMemo.TagStepConsistent` |
| TagMemo.TaggedDigestReused | pkg/skaffold/build/docker/docker.go:67-72 | a digest already in `AlreadyTagged` gets its recorded tag back with no call and no change |
| TagMemo.RecordedAfterRetag | pkg/skaffold/build/docker/docker.go:74-88 | the map changes only by recording a new digest with the returned tag after every retag call succeeded; an error leaves it unchanged; a success on a new digest records it |
| TagMemo.TagStepConsistent | pkg/skaffold/build/bazel/bazel.go:60-88 | no earlier entry is lost or changed, and a returned tag is the one recorded for the digest |
| TagMemo.LocalBuilder.Record | pkg/skaffold/build/docker/docker.go:67-88 | the builder's map and the returned tag and calls are those of the tag step |
| Cache.ResolveCacheFile | pkg/skaffold/build/cache/cache.go:115-126 | a given path is used as is and succeeds exactly when it can be verified or created, failing with that error otherwise; with no path, a missing home directory fails wrapped as "retrieving home directory", else the default file under home is used on the same terms |
| Cache.NewCache | pkg/skaffold/build/cache/cache.go:66-113 | caching off gives the shared empty cache; a file cache is returned exactly when the file resolves and its contents parse; it then holds that file and its entries, starts with no valid artifact, pushes exactly when the local build says `push: true`, and an unusable daemon only leaves the image list empty |
| Cache.DepModified | pkg/skaffold/build/cache/cache.go:163-172 | true exactly when some modified file is one of the dependencies |
| Cache.SharesSymmetric | pkg/skaffold/build/cache/cache.go:163-172 | the answer does not depend on which list is scanned first, and is false when either list is empty |
| Cache.Invalidated | pkg/skaffold/build/cache/cache.go:140-161 | the artifacts `HandleEvent` drops on "change": the valid ones whose dependencies cannot be listed or include a modified file |
| Cache.ArtifactCache.HandleEvent | pkg/skaffold/build/cache/cache.go:140-161 | an event other than "change" changes nothing; on "change" exactly the valid artifacts whose dependency listing fails or meets a modified file are dropped from the valid set, and the persisted entries are untouched |
| Retrieve.UniqueTag | pkg/skaffold/build/cache/retrieve.go:99-109 | with local images the tag is the image ID tag of the cached entry; otherwise the artifact's tag pinned `@` to the cached digest (a missing tag or entry reads as empty) |
| Retrieve.Step | pkg/skaffold/build/cache/retrieve.go:60-115 | one artifact fails the check exactly when its tag or push fails or, when it need not be rebuilt, its unique tag fails; a failed lookup or a miss appends it to the build list (a miss also records its hash); otherwise it is appended to the built list under its unique tag |
| Retrieve.PlanPartitions | pkg/skaffold/build/cache/retrieve.go:57-115 | a successful check puts every artifact in exactly one list, in order: failed lookups and misses to build, the others already built; the hashes recorded are those of the misses; no tag or push failed |
| Retrieve.PlanBuildList | pkg/skaffold/build/cache/retrieve.go:65-75 | the build list is the failed lookups and misses, in order |
| Retrieve.PlanBuiltNames | pkg/skaffold/build/cache/retrieve.go:97-114 | the built list names the other artifacts, in order |
| Retrieve.PlanHashes | pkg/skaffold/build/cache/retrieve.go:71-73 | the hashes recorded are exactly those of the misses |
| Retrieve.PlanNoActionFailed | pkg/skaffold/build/cache/retrieve.go:77-87 | in a successful check no tag or push failed |
| Retrieve.PlanFailsOnlyOnAction | pkg/skaffold/build/cache/retrieve.go:77-106 | the check fails exactly when some artifact's tag, push or image-ID tag fails |
| Retrieve.PlanFrom | pkg/skaffold/build/cache/retrieve.go:57-115 | the cache check from a given artifact on: a failed lookup or a miss joins the build list, anything else is re-tagged and joins the built list, and the first tag, push or image-ID failure ends it; specified by `Retrieve.PlanPartitions` and `Retrieve.PlanFailsOnlyOnAction` |
| Retrieve.Reuse | pkg/skaffold/build/cache/retrieve.go:97-114 | an artifact already built joins the built list under its unique tag: the image-ID tag when images are local, `tag@digest` otherwise |
| Retrieve.EntryFor | pkg/skaffold/build/cache/retrieve.go:138-159 | an entry is formed exactly when (local, or the tag parses) and the image ID is found; an unparsable tag fails as "parsing reference <tag>"; the entry holds the image ID and, for remote images only, the parsed digest |
| Retrieve.AddFromWrites | pkg/skaffold/build/cache/retrieve.go:137-163 | recording stops exactly when some image's entry cannot be formed; entries under other hashes are kept; only hashes of built images are written, and all of them when nothing failed |
| Retrieve.AddFromStops | pkg/skaffold/build/cache/retrieve.go:137-163 | recording stops exactly when some image's entry cannot be formed |
| Retrieve.AddFromKeys | pkg/skaffold/build/cache/retrieve.go:159 | entries under other hashes are kept, only the hashes of built images are written, and all of them when nothing failed |
| Retrieve.AddFrom | pkg/skaffold/build/cache/retrieve.go:137-163 | `addArtifacts` from a given build on: each image's entry is formed and filed under its hash until one cannot be formed; specified by `Retrieve.AddFromWrites`, `Retrieve.AddFromStops` and `Retrieve.AddFromKeys` |
| Retrieve.RetrievingCache.CheckCache | pkg/skaffold/build/cache/retrieve.go:57-115 | the loop computes exactly the cache check specified by `PlanFrom` from an empty plan |
| Retrieve.RetrievingCache.AddArtifacts | pkg/skaffold/build/cache/retrieve.go:137-163 | the cache afterwards and the error are those of `AddFrom` from the old cache; earlier writes survive a failure |
| Retrieve.RetrievingCache.Build | pkg/skaffold/build/cache/retrieve.go:39-135 | cancellation gives `context.Canceled`; a failed check or a failed build ("build failed") is the error and leaves the cache alone; otherwise the new images then the cached ones are returned, whatever recording them in the cache does, and the cache is updated as `AddFrom` says |
| Retrieve.BuildReturnsEveryArtifact | pkg/skaffold/build/cache/retrieve.go:119-134 | when the build returns one image per artifact it was given, the result names every configured image exactly once |
| Retrieve.SplitNames | pkg/skaffold/build/cache/retrieve.go:60-115 | the build list and the reused list together hold every image name once |
| Retrieve.SplitStep | pkg/skaffold/build/cache/retrieve.go:63-75 | one artifact goes to exactly one of the two lists |
| Sync.Intersect | pkg/skaffold/sync/sync.go:88-114 | the nested loops, with the inner one walking the map order drawn for the current file, compute exactly the intersection specified by `IntersectFrom` from an empty map |
| Sync.MatchAllSome | pkg/skaffold/sync/sync.go:95-111 | when one file matches, it matched every pattern, and its destination is the one the last pattern in the iteration order gives it |
| Sync.MatchAllNoneIff | pkg/skaffold/sync/sync.go:95-102 | without pattern errors, one file's match is None exactly when some pattern does not match it |
| Sync.IntersectSome | pkg/skaffold/sync/sync.go:88-114 | a successful intersection holds every listed file; each file matched every pattern of its own map order, and a file's last occurrence goes where the last pattern of that file's order sends it; other entries stay |
| Sync.IntersectSomeKeys | pkg/skaffold/sync/sync.go:89-113 | the keys of a successful intersection are the listed files (and what the map held), and other entries stay |
| Sync.IntersectSomeFiles | pkg/skaffold/sync/sync.go:90-111 | the last occurrence of each listed file has a relative path, is in the result, and gets the destination of the last pattern of the order drawn for it |
| Sync.IntersectFirst | pkg/skaffold/sync/sync.go:90-111 | a successful intersection took the first file's relative path, matched it under the first file's order, and continued with the rest |
| Sync.IntersectNoneIff | pkg/skaffold/sync/sync.go:88-114 | with no path or pattern errors, the result is None exactly when some file fails some pattern of its order, and a map otherwise |
| Sync.MatchAll | pkg/skaffold/sync/sync.go:95-111 | the inner loop of `intersect` for one file under one map order: a pattern error is wrapped "pattern error for" and the relative path, a pattern that does not match gives None, and each match overwrites the file's destination; its meaning is stated by `Sync.MatchAllSome` and `Sync.MatchAllNoneIff` |
| Sync.Destination | pkg/skaffold/sync/sync.go:107-110 | a file matched by a pattern with glob characters goes into the rule's directory under its base name; otherwise it goes to the rule's destination itself |
| Sync.IntersectFrom | pkg/skaffold/sync/sync.go:88-114 | `intersect` from a given file on: each file's relative path (a failure wrapped "changed file … can't be found relative to context …"), then every rule in the order drawn for that file; specified by `Sync.IntersectSome` and `Sync.IntersectNoneIff`, and computed by `Sync.Intersect` |
| Sync.PerFileOrdersDiffer | pkg/skaffold/sync/sync.go:95-110 | two files ranged over in different map orders end at the destinations of different rules: the one whose order ends with `p` goes where `p` sends it, the other where `q` does |
| Sync.NewItem | pkg/skaffold/sync/sync.go:46-77 | `NewItem`: no change or no rules gives no item and no error; errors of the copy and delete intersections are wrapped with their contexts; None from either asks for a rebuild; a missing tag is the "could not find latest tag" error; the two intersections range over the map independently; specified by `Sync.NewItemCoversChanges` and `Sync.NothingToSync` |
| Sync.LatestTag | pkg/skaffold/sync/sync.go:79-86 | the tag of the first build of the image; "" when no build has that image |
| Sync.IntersectMatchesEveryRule | pkg/skaffold/sync/sync.go:88-114 | from an empty map, a successful intersection holds exactly the listed files, and each matched every rule of the sync map, whatever order was drawn for it |
| Sync.NewItemCoversChanges | pkg/skaffold/sync/sync.go:46-77 | an item is produced only on a change with sync rules; it names the newest non-empty tag of the image, copies exactly the added and modified files and deletes exactly the deleted ones, and every file it copies or deletes matched every rule, for any orders drawn by the two intersections |
| Sync.NothingToSync | pkg/skaffold/sync/sync.go:47-50 | no change, or no sync rule, gives neither an item nor an error |
| Sync.EmptyFileListIntersects | pkg/skaffold/sync/sync.go:88-114 | an empty file list intersects to an empty map rather than to None, so a change with nothing deleted still syncs |
| PortForwardEntry.NewEntry | pkg/skaffold/kubernetes/portforward/port_forward_entry.go:26-35 | a fresh entry holds the resource and every other field at its zero value |
| PortForwardEntry.Key | pkg/skaffold/kubernetes/portforward/port_forward_entry.go:38-40 | `key`: the resource's type, name, namespace and port, joined by dashes; specified by `PortForwardEntry.KeyIgnoresGeneration` and `PortForwardEntry.SameKeySamePort` |
| PortForwardEntry.PodKey | pkg/skaffold/kubernetes/portforward/port_forward_entry.go:43-45 | `podKey`: container name, namespace, port name and port, joined by dashes; specified by `PortForwardEntry.KeyIgnoresGeneration` and `PortForwardEntry.SameKeySamePort` |
| PortForwardEntry.String | pkg/skaffold/kubernetes/portforward/port_forward_entry.go:47-51 | the printed form is the same text as the key |
| PortForwardEntry.KeyIgnoresGeneration | pkg/skaffold/kubernetes/portforward/port_forward_entry.go:37-45 | the key ignores the version, pod, container, port name and local port; the pod key ignores the version, pod name, local port and resource type and name |
| PortForwardEntry.DashedDeterminesPort | pkg/skaffold/kubernetes/portforward/port_forward_entry.go:38-40 | two equal dashed keys with non-negative ports name the same port |
| PortForwardEntry.DigitTail | pkg/skaffold/kubernetes/portforward/port_forward_entry.go:38-40 | the digits after the last dash are determined by the text |
| PortForwardEntry.LastDash | pkg/skaffold/kubernetes/portforward/port_forward_entry.go:38-40 | in a dashed key the last dash is followed only by the port's digits |
| PortForwardEntry.SameKeySamePort | pkg/skaffold/kubernetes/portforward/port_forward_entry.go:37-45 | entries with the same key, or the same pod key, forward the same port |
| PortForwardEntry.PodEntryString | pkg/skaffold/kubernetes/portforward/port_forward_entry_test.go:31-40 | port 8080 of pod `podName` in `default` prints as `pod-podName-default-8080` |
| PortForwardEntry.DeploymentEntryString | pkg/skaffold/kubernetes/portforward/port_forward_entry_test.go:40-48 | port 9000 of deployment `depName` in `namespace` prints as `deployment-depName-namespace-9000` |
| PortForwardEntry.Allocate | pkg/skaffold/kubernetes/portforward/port_forward.go:203-205 | the local port is the one the allocator picks from the wanted port, and it is recorded as taken; nothing else changes |
| PortForwardEntry.Store | pkg/skaffold/kubernetes/portforward/port_forward.go:208-216 | the entry takes its slot in every case; the previous entry is terminated exactly when the new one is a strictly newer version; ports and forwards are unchanged |
| PortForwardEntry.StoreKeepsKeys | pkg/skaffold/kubernetes/portforward/port_forward.go:216 | storing an entry under its own key keeps every entry filed under its key and changes no other slot |
| PortForwardEntry.StoreKeepsPortsExclusive | pkg/skaffold/kubernetes/portforward/port_forward.go:191-216 | filing an entry that reuses its slot's local port, or takes a recorded port no slot holds, keeps local ports exclusive |
| PortForwardEntry.PortSet.constructor | pkg/skaffold/kubernetes/portforward/port_forward.go:79 | a new port set is empty |
| ResourceForwarder.CurrentEntry | pkg/skaffold/kubernetes/portforward/port_forward.go:191-206 | a fresh entry for the resource; under a known key it reuses that entry's local port and allocates nothing, otherwise it allocates from the declared port |
| ResourceForwarder.UpdateEntryWithPodDetails | pkg/skaffold/kubernetes/portforward/port_forward.go:174-189 | a non-integer version changes nothing and is the error; otherwise version and pod name are set, and the container and port names are set exactly when the pod exposes the port, else the error names the resource |
| ResourceForwarder.ForwardEntry | pkg/skaffold/kubernetes/portforward/port_forward.go:208-227 | the entry is filed under its key in every case and stays filed on a timeout; the error is the poll timeout exactly when no attempt connected |
| ResourceForwarder.PortStep | pkg/skaffold/kubernetes/portforward/port_forward.go:150-168 | one container port of `portForwardPod`: current entry, pod details, forward; specified by `ResourceForwarder.PortStepKeepsTable` |
| ResourceForwarder.ForwardPorts | pkg/skaffold/kubernetes/portforward/port_forward.go:148-172 | `portForwardPod` over the remaining ports; the first failure stops it; specified by `ResourceForwarder.ForwardPortsKeepsTable` |
| ResourceForwarder.HandleEvents | pkg/skaffold/kubernetes/portforward/port_forward.go:104-135 | the watch loop over a sequence of events, each forwardable pod forwarded in turn with failures only logged; specified by `ResourceForwarder.HandleEventsKeepsTable` |
| ResourceForwarder.PortStepKeepsTable | pkg/skaffold/kubernetes/portforward/port_forward.go:150-168 | one container port keeps every entry under its key, only grows the table, and files every entry it forwards |
| ResourceForwarder.ForwardPortsKeepsTable | pkg/skaffold/kubernetes/portforward/port_forward.go:148-172 | forwarding a pod's ports keeps every entry under its key, only grows the table, and files every entry it forwards |
| ResourceForwarder.HandleEventsKeepsTable | pkg/skaffold/kubernetes/portforward/port_forward.go:104-135 | the whole watch loop keeps every entry under its key and only grows the table |
| ResourceForwarder.BadVersionStillTakesPort | pkg/skaffold/kubernetes/portforward/port_forward.go:159-162 | for an unseen key, a non-integer version still takes a local port while nothing is filed or forwarded, and the error is wrapped twice |
| ResourceForwarder.PortStepKeepsPortsExclusive | pkg/skaffold/kubernetes/portforward/port_forward.go:159-168 | with an allocator that never returns a taken port, no two keys share a local port after one port |
| ResourceForwarder.ForwardPortsKeepsPortsExclusive | pkg/skaffold/kubernetes/portforward/port_forward.go:148-172 | the same over all of a pod's ports |
| ResourceForwarder.PortForwarder.constructor | pkg/skaffold/kubernetes/portforward/port_forward.go:71-82 | no entries yet, with the given port set |
| ResourceForwarder.PortForwarder.Stop | pkg/skaffold/kubernetes/portforward/port_forward.go:84-89 | every filed entry is terminated, and nothing else is |
| ResourceForwarder.PortForwarder.GetCurrentEntry | pkg/skaffold/kubernetes/portforward/port_forward.go:191-206 | the entry and the taken ports are those of `CurrentEntry` |
| ResourceForwarder.PortForwarder.Forward | pkg/skaffold/kubernetes/portforward/port_forward.go:208-227 | the new state and the error are those of `ForwardEntry` |
| ResourceForwarder.PortForwarder.ForwardContainerPort | pkg/skaffold/kubernetes/portforward/port_forward.go:150-168 | the new state and the error are those of one port step |
| ResourceForwarder.PortForwarder.ForwardFirstPort | pkg/skaffold/kubernetes/portforward/port_forward.go:150-168 | the first port either fails as the whole loop would, or leaves a state from which the rest of the loop gives the same result |
| ResourceForwarder.PortForwarder.ForwardContainer | pkg/skaffold/kubernetes/portforward/port_forward.go:149-170 | one container's ports, stated the same way against the whole loop |
| ResourceForwarder.PortForwarder.PortForwardPod | pkg/skaffold/kubernetes/portforward/port_forward.go:148-172 | the new state and the error are those of forwarding every port of every container in order, stopping at the first failure |
| ResourceForwarder.PortForwarder.Start | pkg/skaffold/kubernetes/portforward/port_forward.go:93-135 | a failing pod watcher is the wrapped error and nothing changes; otherwise nil, and the state is that of the watch loop over the events |
| PodForwarder.FindInPorts | pkg/skaffold/kubernetes/portforward/pod_forwarder.go:195-199 | the first port of a container, from a position on, that equals the wanted port, with no earlier one equal; None exactly when no such port |
| PodForwarder.FindFrom | pkg/skaffold/kubernetes/portforward/pod_forwarder.go:194-207 | the first (container, port) position in container-then-port order that exposes the port; None exactly when none does |
| PodForwarder.RetrieveContainerNameAndPortNameFromPod | pkg/skaffold/kubernetes/portforward/pod_forwarder.go:193-208 | the names of the first exposing port in container-then-port order, init containers before containers; the "does not expose port" error exactly when no container of either kind exposes it |
| PodForwarder.RetrieveFromTestPod | pkg/skaffold/kubernetes/portforward/pod_forwarder_test.go:457-511 | on the test pod, port 2 is found in init container `container1`, port 3 in `container2`, and port 500 is an error |
| PodForwarder.FirstInitContainerWins | pkg/skaffold/kubernetes/portforward/pod_forwarder.go:194-201 | when two init containers expose the port, the earlier container's names are returned |
| PodForwarder.ContainerPorts | pkg/skaffold/kubernetes/portforward/pod_forwarder.go:121 | one port number per declared container port, in order |
| PodForwarder.AutoEntry | pkg/skaffold/kubernetes/portforward/pod_forwarder.go:161-190 | a non-integer version is the wrapped error; otherwise an entry exists exactly when the pod exposes the port, carrying the version, pod name and names found; a known pod key keeps its local port and takes nothing, a new one takes the allocator's port; no slot changes |
| PodForwarder.PortStep | pkg/skaffold/kubernetes/portforward/pod_forwarder.go:121-139 | one container port of `portForwardPod`: find or make its entry, then forward it; specified by `PodForwarder.PortStepKeepsTable` and computed by `PodForwarder.AutomaticPodForwarder.ForwardContainerPort` |
| PodForwarder.ForwardPorts | pkg/skaffold/kubernetes/portforward/pod_forwarder.go:119-143 | `portForwardPod` over the remaining ports; the first failure stops it; specified by `PodForwarder.ForwardPortsKeepsTable` and computed by `PodForwarder.AutomaticPodForwarder.PortForwardPod` |
| PodForwarder.Forwardable | pkg/skaffold/kubernetes/portforward/pod_forwarder.go:90-107 | the watch loop's filter: error, non-pod and deletion events are skipped; a pod is forwarded only when selected, running and not being deleted |
| PodForwarder.HandleEvents | pkg/skaffold/kubernetes/portforward/pod_forwarder.go:81-113 | the watch loop over a sequence of events, each forwardable pod forwarded in turn with failures only logged; specified by `PodForwarder.HandleEventsKeepsTable` and computed by `PodForwarder.AutomaticPodForwarder.Start` |
| PodForwarder.ForwardEntry | pkg/skaffold/kubernetes/portforward/pod_forwarder.go:145-159 | the entry is filed under its pod key in every case, and the result is an error exactly when the single Forward attempt fails |
| PodForwarder.PortStepKeepsTable | pkg/skaffold/kubernetes/portforward/pod_forwarder.go:121-139 | one container port keeps every entry under its pod key, only grows the table, and files what it forwards |
| PodForwarder.ForwardPortsKeepsTable | pkg/skaffold/kubernetes/portforward/pod_forwarder.go:119-143 | forwarding a pod's ports keeps every entry under its pod key, only grows the table, and files what it forwards |
| PodForwarder.HandleEventsKeepsTable | pkg/skaffold/kubernetes/portforward/pod_forwarder.go:81-113 | the whole watch loop keeps every entry under its pod key and only grows the table |
| PodForwarder.BadVersionChangesNothing | pkg/skaffold/kubernetes/portforward/pod_forwarder.go:130-133 | a non-integer resource version fails at the first port with nothing filed, taken or forwarded |
| PodForwarder.PortStepKeepsPortsExclusive | pkg/skaffold/kubernetes/portforward/pod_forwarder.go:179-187 | with an allocator that never returns a taken port, no two pod keys share a local port after one port |
| PodForwarder.ForwardPortsKeepsPortsExclusive | pkg/skaffold/kubernetes/portforward/pod_forwarder.go:119-143 | the same over all of a pod's ports |
| PodForwarder.SkippedEventsChangeNothing | pkg/skaffold/kubernetes/portforward/pod_forwarder.go:90-111 | error, deletion, non-pod and non-forwardable events change nothing: the loop equals the loop over the forwardable events alone |
| PodForwarder.ScenarioLookup | pkg/skaffold/kubernetes/portforward/pod_forwarder_test.go:364-426 | the scenario pod's port 8080 is container `containername`, port `portname` |
| PodForwarder.ScenarioEntryKey | pkg/skaffold/kubernetes/portforward/pod_forwarder_test.go:364-426 | every generation of the scenario entry has the same pod key |
| PodForwarder.ScenarioFirstForward | pkg/skaffold/kubernetes/portforward/pod_forwarder_test.go:364-426 | the first forward at version 1 files the entry on port 8080 |
| PodForwarder.ScenarioSecondEntry | pkg/skaffold/kubernetes/portforward/pod_forwarder_test.go:364-426 | at version 2 the entry is found under its key and keeps local port 8080 |
| PodForwarder.ScenarioUpdatedPod | pkg/skaffold/kubernetes/portforward/pod_forwarder_test.go:364-426 | the updated pod keeps its port and single slot, ends at version 2, and the version-1 entry is terminated |
| PodForwarder.AutomaticPodForwarder.constructor | pkg/skaffold/kubernetes/portforward/pod_forwarder.go:51-61 | no entries yet, sharing the given port set |
| PodForwarder.AutomaticPodForwarder.Stop | pkg/skaffold/kubernetes/portforward/pod_forwarder.go:63-68 | every filed entry is terminated, and nothing else is |
| PodForwarder.AutomaticPodForwarder.GetEntry | pkg/skaffold/kubernetes/portforward/pod_forwarder.go:161-190 | the entry, error and taken ports are those of `AutoEntry` |
| PodForwarder.AutomaticPodForwarder.Forward | pkg/skaffold/kubernetes/portforward/pod_forwarder.go:145-159 | the new state and the error are those of `ForwardEntry` |
| PodForwarder.AutomaticPodForwarder.ForwardContainerPort | pkg/skaffold/kubernetes/portforward/pod_forwarder.go:122-139 | the new state and the error are those of one port step |
| PodForwarder.AutomaticPodForwarder.ForwardFirstPort | pkg/skaffold/kubernetes/portforward/pod_forwarder.go:122-139 | the first port either fails as the whole loop would, or leaves a state from which the rest of the loop gives the same result |
| PodForwarder.AutomaticPodForwarder.ForwardContainer | pkg/skaffold/kubernetes/portforward/pod_forwarder.go:120-141 | one container's ports, stated the same way against the whole loop |
| PodForwarder.AutomaticPodForwarder.PortForwardPod | pkg/skaffold/kubernetes/portforward/pod_forwarder.go:119-143 | the new state and the error are those of forwarding every port of every container in order, stopping at the first failure |
| PodForwarder.AutomaticPodForwarder.Start | pkg/skaffold/kubernetes/portforward/pod_forwarder.go:70-117 | a failing pod watcher is the wrapped error and nothing changes; otherwise nil, and the state is that of the watch loop over the events |
| Forwarders.GetForwarders | pkg/skaffold/kubernetes/portforward/forwarder.go:46-63 | the resource forwarder first, then the automatic pod forwarder exactly when automatic pod forwarding is on; all new, distinct, with no entries, and sharing one new empty port set |
| Forwarders.StartWarnings | pkg/skaffold/kubernetes/portforward/forwarder.go:65-72 | at most one warning per forwarder, and none exactly when every Start succeeded |
| Forwarders.Start | pkg/skaffold/kubernetes/portforward/forwarder.go:65-72 | nil in every case; the warnings logged are those of the failed Starts, in order |
| Forwarders.StopOne | pkg/skaffold/kubernetes/portforward/forwarder.go:78-83 | stopping one forwarder keeps its entries and terminates each of them |
| Forwarders.Stop | pkg/skaffold/kubernetes/portforward/forwarder.go:78-83 | nil; every forwarder of the list has every filed entry terminated and keeps its entries |
| Forwarders.Terminate | pkg/skaffold/kubernetes/portforward/forwarder.go:74-76 | does nothing and returns nil |
| KubePortForward.Display | pkg/skaffold/kubernetes/port_forward.go:283-291 | the printed form `type/name/namespace:port` is never the dashed key |
| KubePortForward.Terminate | pkg/skaffold/kubernetes/port_forward.go:112-119 | an entry with a cancel handle is cancelled; one without is left alone |
| KubePortForward.CurrentEntry | pkg/skaffold/kubernetes/port_forward.go:244-260 | a fresh entry at the given version; under a known key it keeps that entry's local port and allocates nothing, otherwise it allocates from the declared port |
| KubePortForward.UpdateEntryWithPodDetails | pkg/skaffold/kubernetes/port_forward.go:232-242 | the pod name is always set; the container and port names are set exactly when the pod exposes the port, otherwise they are kept and the error names the resource |
| KubePortForward.ForwardEntry | pkg/skaffold/kubernetes/port_forward.go:262-281 | the entry is filed under its key, with the cancel handle the first Forward installs; the error is the poll timeout exactly when no attempt connected |
| KubePortForward.PortStep | pkg/skaffold/kubernetes/port_forward.go:202-226 | one container port of `portForwardPod`: parse the version, current entry, pod details, forward; specified by `KubePortForward.PortStepKeepsValid` |
| KubePortForward.ForwardPorts | pkg/skaffold/kubernetes/port_forward.go:200-230 | `portForwardPod` over the remaining ports; the first failure stops it; specified by `KubePortForward.ForwardPortsKeepsValid` |
| KubePortForward.HandleEvents | pkg/skaffold/kubernetes/port_forward.go:154-186 | the watch loop over a sequence of events, each forwardable pod forwarded in turn with failures only logged; specified by `KubePortForward.HandleEventsKeepsValid` |
| KubePortForward.ForwardEntryKeepsValid | pkg/skaffold/kubernetes/port_forward.go:262-281 | a forward keeps every entry filed under its key with a cancel handle, and only grows the table |
| KubePortForward.PortStepKeepsValid | pkg/skaffold/kubernetes/port_forward.go:202-226 | one container port does the same |
| KubePortForward.ForwardPortsKeepsValid | pkg/skaffold/kubernetes/port_forward.go:200-230 | a pod's ports do the same |
| KubePortForward.HandleEventsKeepsValid | pkg/skaffold/kubernetes/port_forward.go:154-186 | the whole watch loop does the same |
| KubePortForward.SupersededIsCancelled | pkg/skaffold/kubernetes/port_forward.go:263-268 | in a valid table an entry superseded by a strictly newer version is really cancelled, never handed to a no-op Terminate |
| KubePortForward.BadVersionChangesNothing | pkg/skaffold/kubernetes/port_forward.go:210-213 | a non-integer resource version fails at the first port before any port is taken or entry created |
| KubePortForward.PortForwarder.constructor | pkg/skaffold/kubernetes/port_forward.go:121-132 | no entries yet and a port set of its own |
| KubePortForward.PortForwarder.TerminateEntry | pkg/skaffold/kubernetes/port_forward.go:112-119 | the entry is cancelled exactly when it has a cancel handle |
| KubePortForward.PortForwarder.Stop | pkg/skaffold/kubernetes/port_forward.go:134-139 | every filed entry with a cancel handle is cancelled, and nothing else is |
| KubePortForward.PortForwarder.GetCurrentEntry | pkg/skaffold/kubernetes/port_forward.go:244-260 | the entry and the taken ports are those of `CurrentEntry` |
| KubePortForward.PortForwarder.Forward | pkg/skaffold/kubernetes/port_forward.go:262-281 | the new state and the error are those of `ForwardEntry` |
| KubePortForward.PortForwarder.ForwardContainerPort | pkg/skaffold/kubernetes/port_forward.go:202-226 | the new state and the error are those of one port step |
| KubePortForward.PortForwarder.ForwardFirstPort | pkg/skaffold/kubernetes/port_forward.go:202-226 | the first port either fails as the whole loop would, or leaves a state from which the rest of the loop gives the same result |
| KubePortForward.PortForwarder.ForwardContainer | pkg/skaffold/kubernetes/port_forward.go:201-228 | one container's ports, stated the same way against the whole loop |
| KubePortForward.PortForwarder.PortForwardPod | pkg/skaffold/kubernetes/port_forward.go:200-230 | the new state and the error are those of forwarding every port of every container in order, stopping at the first failure |
| KubePortForward.PortForwarder.Start | pkg/skaffold/kubernetes/port_forward.go:143-198 | a failing pod watcher is the wrapped error and nothing changes; otherwise nil, and the state is that of the watch loop over the events |
| KubectlDeploy.GlobSeesNoURL | pkg/skaffold/deploy/kubectl.go:174-181 | the glob expander is given exactly the configured manifests that are not URLs |
| KubectlDeploy.ManifestFileList | pkg/skaffold/deploy/kubectl.go:173-199 | `manifestFiles`: the non-URL manifests expanded by the glob, keeping the deployable formats and any file listed literally; specified by `KubectlDeploy.GlobSeesNoURL` and `KubectlDeploy.ManifestFileListMembers` |
| KubectlDeploy.ManifestFileListMembers | pkg/skaffold/deploy/kubectl.go:173-199 | a glob failure is wrapped as "expanding kubectl manifest paths"; otherwise a file is kept exactly when the glob produced it and it is in a supported format or was listed literally |
| KubectlDeploy.ReadManifestList | pkg/skaffold/deploy/kubectl.go:202-221 | `readManifests`: the manifest files, then the URL manifests in configured order, read by kubectl unless there are none; specified by `KubectlDeploy.ReadManifestListOrder` |
| KubectlDeploy.ReadManifestListOrder | pkg/skaffold/deploy/kubectl.go:202-221 | kubectl reads the manifest files followed by the URL manifests in configured order; with none, the result is empty whatever kubectl would answer |
| KubectlDeploy.RemoteTarget | pkg/skaffold/deploy/kubectl.go:226-232 | the `kubectl get` arguments are the object name followed by `-o yaml` |
| KubectlDeploy.RemoteTargetWithoutNamespace | pkg/skaffold/deploy/kubectl.go:226-232 | without a colon the namespace is empty and the whole name is fetched |
| KubectlDeploy.RemoteTargetWithNamespace | pkg/skaffold/deploy/kubectl.go:228-231 | `ns:name[:more]` gives namespace `ns` (before the first colon) and object `name` (up to the second) |
| KubectlDeploy.ReadRemoteManifest | pkg/skaffold/deploy/kubectl.go:225-241 | fails exactly when `kubectl get` in that namespace with those arguments fails |
| KubectlDeploy.ReadRemotes | pkg/skaffold/deploy/kubectl.go:86-93 | on success one manifest per remote name, each what `kubectl get` printed for it; fails exactly when some remote read fails |
| KubectlDeploy.Gather | pkg/skaffold/deploy/kubectl.go:80-93 | the local and URL manifests followed by the remote ones, or the first error with its context |
| KubectlDeploy.Transform | pkg/skaffold/deploy/kubectl.go:122-128 | the manifest transforms applied in turn; the first failure ends the chain; specified by `KubectlDeploy.TransformStopsAtFirstFailure` |
| KubectlDeploy.Prepare | pkg/skaffold/deploy/kubectl.go:110-128 | the rewriting before apply: image replacement ("replacing images in manifests"), labels ("setting labels in manifests"), then every transform |
| KubectlDeploy.DeployOutcome | pkg/skaffold/deploy/kubectl.go:74-137 | `Deploy` from the images captured so far: gather, record the original images once, stop on no manifests, rewrite, then apply ("kubectl error"); specified by `KubectlDeploy.NoManifestsNoApply`, `KubectlDeploy.ApplyOnlyAfterPrepare` and `KubectlDeploy.OriginalImagesCapturedOnce`, and computed by `KubectlDeploy.KubectlDeployer.Deploy` |
| KubectlDeploy.OriginalImagesCapturedOnce | pkg/skaffold/deploy/kubectl.go:95-100 | once original images are recorded they never change; while none are, a successful deploy records the images found in the gathered manifests |
| KubectlDeploy.NoManifestsNoApply | pkg/skaffold/deploy/kubectl.go:104-106 | with no manifest at all nothing is applied and no error is returned |
| KubectlDeploy.ApplyOnlyAfterPrepare | pkg/skaffold/deploy/kubectl.go:104-133 | apply is reached only when manifests exist and every rewriting step succeeded, and then receives exactly their result; the deploy then fails exactly when apply fails; a failed step means no apply and an error |
| KubectlDeploy.TransformStopsAtFirstFailure | pkg/skaffold/deploy/kubectl.go:122-128 | a failing transform stops the chain and its error is wrapped as "unable to transform manifests" |
| KubectlDeploy.KubectlDeployer.Labels | pkg/skaffold/deploy/kubectl.go:66-70 | the only label is the deployer label, with value `kubectl` |
| KubectlDeploy.KubectlDeployer.ManifestFiles | pkg/skaffold/deploy/kubectl.go:173-199 | the two filtering loops compute exactly the manifest file list specified above |
| KubectlDeploy.KubectlDeployer.Dependencies | pkg/skaffold/deploy/kubectl.go:169-171 | the dependencies are the manifest files of the configuration |
| KubectlDeploy.KubectlDeployer.ReadManifests | pkg/skaffold/deploy/kubectl.go:202-221 | the loop appending URL manifests computes exactly `ReadManifestList` |
| KubectlDeploy.KubectlDeployer.GatherManifests | pkg/skaffold/deploy/kubectl.go:80-93 | the local manifests followed by each remote one, or the first error wrapped |
| KubectlDeploy.KubectlDeployer.Deploy | pkg/skaffold/deploy/kubectl.go:74-137 | the error, the images recorded afterwards and what is applied are those of `DeployOutcome` from the images recorded before |
| KubectlDeploy.KubectlDeployer.constructor | pkg/skaffold/deploy/kubectl.go:52-64 | a new deployer holds the configured local and remote manifests and has recorded no original images |
| Prebuilt.IndexFromErr | pkg/skaffold/build/prebuilt.go:52-56 | indexing fails exactly when some image reference does not parse, and then with the error of the first such image |
| Prebuilt.IndexFrom | pkg/skaffold/build/prebuilt.go:50-59 | the first loop of `Build` from a given image on: each parsed reference is filed under its base name, and the first unparsable one aborts; specified by `Prebuilt.IndexFromErr`, `Prebuilt.IndexFromKeys` and `Prebuilt.IndexFromLastWins` |
| Prebuilt.Index | pkg/skaffold/build/prebuilt.go:50-59 | the base-name index of all the configured images, from an empty map; computed by `Prebuilt.IndexImages` |
| Prebuilt.IndexFromKeys | pkg/skaffold/build/prebuilt.go:50-59 | the index holds exactly the base names of the image references |
| Prebuilt.IndexFromLastWins | pkg/skaffold/build/prebuilt.go:52-59 | a base name is filed with the last reference that has it |
| Prebuilt.IndexFromStays | pkg/skaffold/build/prebuilt.go:52-59 | an entry no later reference overwrites keeps its value |
| Prebuilt.MatchFromContents | pkg/skaffold/build/prebuilt.go:63-74 | on success one build per artifact, in order, each with the tag filed under its image name; the tags left over are exactly those no artifact named |
| Prebuilt.DuplicateNameFails | pkg/skaffold/build/prebuilt.go:64-68 | matched tags are removed, so two artifacts with the same image name fail the build |
| Prebuilt.MissingNameFails | pkg/skaffold/build/prebuilt.go:64-67 | an artifact whose image name has no pre-built reference fails the build |
| Prebuilt.MatchFrom | pkg/skaffold/build/prebuilt.go:61-74 | the second loop of `Build`: each artifact takes the tag filed under its image name, which is then removed; a name without a tag is the "no prebuilt image" error; specified by `Prebuilt.MatchFromContents`, `Prebuilt.DuplicateNameFails` and `Prebuilt.MissingNameFails` |
| Prebuilt.BuildPlan | pkg/skaffold/build/prebuilt.go:49-84 | the index, then the artifacts' matches and the leftover references; its length is stated by `Prebuilt.BuildLength` |
| Prebuilt.BuildLength | pkg/skaffold/build/prebuilt.go:61-83 | a successful build lists one entry per artifact plus one per base name no artifact asked for |
| Prebuilt.PrebuiltImagesBuilder.constructor | pkg/skaffold/build/prebuilt.go:32-36 | the builder holds the given image references |
| Prebuilt.PrebuiltImagesBuilder.Labels | pkg/skaffold/build/prebuilt.go:43-47 | the only label is the builder label, with value `pre-built` |
| Prebuilt.PrebuiltImagesBuilder.Build | pkg/skaffold/build/prebuilt.go:49-84 | errors are those of the plan; on success the artifacts' matches come first, in order, followed by every leftover reference once |
| Prebuilt.IndexImages | pkg/skaffold/build/prebuilt.go:50-59 | the first loop computes exactly the base-name index |
| Prebuilt.MatchArtifacts | pkg/skaffold/build/prebuilt.go:61-74 | the second loop computes exactly the matches and the leftovers |
| Prebuilt.AppendLeftovers | pkg/skaffold/build/prebuilt.go:76-81 | appends every leftover tag exactly once after the given builds, in an unspecified order |
| JibGradle.GradleCommand | pkg/skaffold/build/local/jib_gradle.go:64-70 | the Gradle task line starts with a colon and ends with `:task` |
| JibGradle.GenerateGradleArgs | pkg/skaffold/build/local/jib_gradle.go:63-73 | exactly two arguments: the Gradle task line, then `--image=` followed by the image name |
| JibGradle.BuildToDocker | pkg/skaffold/build/local/jib_gradle.go:39-48 | `buildJibGradleToDocker`: the `jibDockerBuild` task on the generated image reference, then the daemon's image ID; a Gradle failure comes first |
| JibGradle.BuildToRegistry | pkg/skaffold/build/local/jib_gradle.go:50-60 | `buildJibGradleToRegistry`: the `jib` task on `ImageName:initialTag`, then the registry digest; a Gradle failure comes first |
| JibGradle.RegistryImage | pkg/skaffold/build/local/jib_gradle.go:51-52 | the image a registry build pushes; specified by `JibGradle.RegistryImageNamesTag` |
| JibGradle.RootProjectCommand | pkg/skaffold/build/local/jib_gradle.go:65-66 | without a project the Gradle task line is `:task` |
| JibGradle.SubProjectCommand | pkg/skaffold/build/local/jib_gradle.go:67-70 | with a project the Gradle task line is `:project:task` |
| JibGradle.BareCommandIffNoProject | pkg/skaffold/build/local/jib_gradle.go:64-70 | the Gradle task line is the bare `:task` if and only if no project is set |
| JibGradle.GradleArgsSamples | pkg/skaffold/build/local/jib_test.go:75-89 | the two sample artifacts give `[":task", "--image=image"]` and `[":project:task", "--image=image"]` |
| JibGradle.RunGradle | pkg/skaffold/build/local/jib_gradle.go:75-86 | fails exactly when Gradle fails, with the failure wrapped as "gradle build failed" |
| JibGradle.BuildJibGradle | pkg/skaffold/build/local/jib_gradle.go:32-60 | pushing runs the `jib` task on `ImageName:initialTag` and returns that image's registry digest; otherwise `jibDockerBuild` on the generated reference and the daemon's image ID; a Gradle failure is returned instead in both cases |
| JibGradle.RegistryImageNamesTag | pkg/skaffold/build/local/jib_gradle.go:51-52 | a registry build names its image the artifact's image name, a colon, then the initial tag |
| JibMaven.ModuleFlags | pkg/skaffold/jib/jib_maven.go:44-50 | `--non-recursive` for a single-module project, otherwise `--projects m --also-make` |
| JibMaven.ProfileFlags | pkg/skaffold/jib/jib_maven.go:52-54 | no flags if and only if no profile is set, otherwise `--activate-profiles p` |
| JibMaven.MavenArgs | pkg/skaffold/jib/jib_maven.go:42-57 | at least three arguments, starting with `--quiet` |
| JibMaven.MavenArgsLayout | pkg/skaffold/jib/jib_maven.go:42-57 | `--quiet`, the module flags, the `jib:_skaffold-files` goal, then the profile flags, which end the list |
| JibMaven.ParseMavenArgsRoundTrip | pkg/skaffold/jib/jib_maven.go:42-57 | the module and the profile can be read back from the arguments |
| JibMaven.MavenArgsInjective | pkg/skaffold/jib/jib_maven.go:42-57 | two artifacts with the same Maven arguments have the same module and profile |
| JibMaven.GetDependenciesMaven | pkg/skaffold/jib/jib_maven.go:33-40 | the listed dependencies, or the listing failure wrapped as "getting jibMaven dependencies" |
| LocalTypes.DockerDesktopIsRemote | pkg/skaffold/build/local/types.go:49 | the newer `docker-desktop` context is not taken for a local cluster; only `minikube` and `docker-for-desktop` are |
| LocalTypes.IsLocalCluster | pkg/skaffold/build/local/types.go:49 | a kube context is a local cluster exactly when it is minikube's or Docker for Desktop's default context |
| LocalTypes.PushImages | pkg/skaffold/build/local/types.go:50-56 | the configured `push` when set; when unset, push exactly when the cluster is not local |
| LocalTypes.NewBuilder | pkg/skaffold/build/local/types.go:43-65 | fails exactly when the docker client cannot be created, wrapped as "getting docker client"; otherwise keeps the context, marks it local exactly for the two local defaults, and decides the push setting as above |
| LocalTypes.DefaultPushFollowsContext | pkg/skaffold/build/local/types.go:49-53 | with no `push` setting, images are pushed exactly when the context is neither `minikube` nor `docker-for-desktop` |
| LocalTypes.Labels | pkg/skaffold/build/local/types.go:68-79 | always the builder label `local`; the docker API version label is present exactly when the daemon answered, with its answer; no other label |
| SchemaLatest.GetVersion | pkg/skaffold/schema/latest/config.go:49-51 | the version is the configuration's `apiVersion` |
| SchemaLatest.GetBuilderName | pkg/skaffold/schema/latest/config.go:54-66 | Google Cloud Build if configured, else kaniko if configured, else Azure Container Build if configured, else the local builder; each choice stated both ways |
| SchemaLatest.LocalBuildNotConsulted | pkg/skaffold/schema/latest/config.go:54-66 | whether a `local` build section is present never changes the builder chosen |
| SchemaLatest.GetDeployerName | pkg/skaffold/schema/latest/config.go:69-78 | helm if configured, else kustomize if configured, else kubectl; each choice stated both ways |
| SchemaLatest.GetTaggerName | pkg/skaffold/schema/latest/config.go:81-93 | envTemplate if configured, else sha256, else dateTime, else gitCommit; each choice stated both ways |
| SchemaLatest.GitTaggerNotConsulted | pkg/skaffold/schema/latest/config.go:81-93 | whether the git tagger is configured never changes the tagger chosen |
| SchemaLatest.Parse | pkg/skaffold/schema/latest/config.go:328-340 | a decoding error is returned unchanged; without defaults the decoded configuration; with defaults the defaulting pass's result, or its error wrapped as "applying default values" |
| SchemaLatest.DefaultsOnlyAfterDecoding | pkg/skaffold/schema/latest/config.go:329-337 | when decoding fails or defaults are not asked for, the defaulting pass has no influence on the outcome |
| SchemaV1alpha1.GetVersion | pkg/skaffold/schema/v1alpha1/config.go:43-45 | the version is the configuration's `apiVersion` |
| SchemaV1alpha1.GetBuilderName | pkg/skaffold/schema/v1alpha1/config.go:48-54 | Google Cloud Build exactly when configured, otherwise the local builder |
| SchemaV1alpha1.GetDeployerName | pkg/skaffold/schema/v1alpha1/config.go:57-63 | helm exactly when configured, otherwise kubectl |
| SchemaV1alpha1.GetTaggerName | pkg/skaffold/schema/v1alpha1/config.go:66-68 | always the sha256 tagger |
| SchemaV1alpha1.TagPolicyNotConsulted | pkg/skaffold/schema/v1alpha1/config.go:66-68 | the configured `tagPolicy` never changes the tagger chosen |
| SchemaV1alpha1.DefaultForMode | pkg/skaffold/schema/v1alpha1/config.go:139-175 | the mode's default sets only the tag policy: the dev strategy in dev mode, the run strategy otherwise |
| SchemaV1alpha1.ParseBase | pkg/skaffold/schema/v1alpha1/config.go:161-165 | decoding starts from the run-mode default when defaults are used and from the zero configuration otherwise |
| SchemaV1alpha1.UnsetTagPolicyComesFromBase | pkg/skaffold/schema/v1alpha1/config.go:160-168 | a file that leaves the tag policy alone ends with the run strategy when defaults are used and the empty policy otherwise; the previous configuration never shows through |
| SchemaV1alpha1.Config.constructor | pkg/skaffold/schema/v1alpha1/config.go:29-31 | a new configuration is the zero configuration |
| SchemaV1alpha1.Config.Parse | pkg/skaffold/schema/v1alpha1/config.go:160-168 | the configuration becomes what the decoder makes of the chosen starting point, and the decoder's error is returned |
| KubeParse.ScalarsHaveNoImages | pkg/skaffold/kubernetes/parse.go:61-78 | a string or other scalar document refers to no image |
| KubeParse.ListImagesAppend | pkg/skaffold/kubernetes/parse.go:64-67 | the images of a sequence are those of its parts, concatenated in order |
| KubeParse.ListOfOne | pkg/skaffold/kubernetes/parse.go:64-67 | a one-element sequence has exactly its element's images |
| KubeParse.MapImagesAppend | pkg/skaffold/kubernetes/parse.go:68-76 | the images of a mapping are those of its entries, concatenated in iteration order |
| KubeParse.MapImagesRemove | pkg/skaffold/kubernetes/parse.go:68-76 | dropping one entry removes exactly that entry's images from the multiset of images |
| KubeParse.MapOrderIrrelevant | pkg/skaffold/kubernetes/parse.go:69 | any permutation of a mapping's entries yields the same images, as a multiset |
| KubeParse.MapImagesOrderFree | pkg/skaffold/kubernetes/parse.go:68-76 | the images found in a mapping document do not depend on Go's iteration order, up to permutation |
| KubeParse.ParseImagesFindsAll | pkg/skaffold/kubernetes/parse.go:61-78 | a value is reported if and only if it is a string stored under an `image` key somewhere in the document, below sequences and other keys |
| KubeParse.ParseImages | pkg/skaffold/kubernetes/parse.go:61-78 | `parseImagesFromYaml`: a sequence yields its elements' images in order; a mapping yields, per entry in iteration order, the value of an `image` key or the images under any other key; scalars yield nothing; specified by `KubeParse.ParseImagesCounts` and `KubeParse.ParseImagesFindsAll` |
| KubeParse.ParseImagesCounts | pkg/skaffold/kubernetes/parse.go:61-78 | the images found, as a multiset, are exactly the references in the document: each value occurs once per `image` key holding it at any depth, as counted independently by `ImageCount` |
| KubeParse.ListFindsAll | pkg/skaffold/kubernetes/parse.go:64-67 | a value is found in a sequence exactly when it is found in one of its elements |
| KubeParse.MapFindsAll | pkg/skaffold/kubernetes/parse.go:68-76 | a value is found in a mapping exactly when it is an `image` value or is found under another key |
| GitHub.OrgsOf | pkg/skaffold/pipeline/gcb/github.go:92-101 | at most one organisation per line |
| GitHub.OrgOf | pkg/skaffold/pipeline/gcb/github.go:93-100 | one line of `parseRemotes`: nothing without a colon, otherwise the text after the first colon up to the next colon or slash; specified by `GitHub.SkippedIffNoColon` and `GitHub.OrgShape` |
| GitHub.ParseRemotes | pkg/skaffold/pipeline/gcb/github.go:89-103 | at most one organisation per line of git's output |
| GitHub.FirstPiece | pkg/skaffold/pipeline/gcb/github.go:99 | the first piece of a split is the text before the first separator, or the whole text when there is none |
| GitHub.SkippedIffNoColon | pkg/skaffold/pipeline/gcb/github.go:95-98 | a line is skipped if and only if it has no colon |
| GitHub.OrgShape | pkg/skaffold/pipeline/gcb/github.go:95-100 | the organisation is the text after the first colon up to the next colon, slash or line end |
| GitHub.RemoteOrg | pkg/skaffold/pipeline/gcb/github.go:93-94 | a remote of the form `prefix:org/repo` names the organisation `org` |
| GitHub.SampleRemote | pkg/skaffold/pipeline/gcb/github.go:93-94 | the documented ssh remote line `git@github.com:priyawadhwa/runtimes-common.git` names `priyawadhwa` |
| GitHub.OrgsOfAppend | pkg/skaffold/pipeline/gcb/github.go:92-101 | lines are handled independently: the organisations of two runs of lines are those of each, in order |
| GitHub.OrgsOfCount | pkg/skaffold/pipeline/gcb/github.go:92-101 | exactly one organisation per line that has a colon |
| GitHub.EmptyOutput | pkg/skaffold/pipeline/gcb/github.go:89-103 | empty git output names no organisation |
| PluginInstall.LastMatch | cmd/skaffold/app/cmd/plugin/install.go:50-55 | no manifest is chosen exactly when none is named after the builder; otherwise the chosen one is the last manifest with that name |
| PluginInstall.PointerTarget | cmd/skaffold/app/cmd/plugin/install.go:50-55 | the loop-variable pointer is set exactly when some manifest matches, and then addresses the last manifest of the list |
| PluginInstall.SelectManifestAsWritten | cmd/skaffold/app/cmd/plugin/install.go:50-55 | the manifest loop as written yields the pointer target above |
| PluginInstall.SelectManifest | cmd/skaffold/app/cmd/plugin/install.go:50-55 | the manifest loop as intended yields the last manifest named after the builder |
| PluginInstall.PointerTargetsWrongManifest | cmd/skaffold/app/cmd/plugin/install.go:51-54 | with the requested builder first and another after it, the pointer addresses the other builder's manifest, while the intended selection is the requested one |
| PluginInstall.LastURIIsLastForOS | cmd/skaffold/app/cmd/plugin/install.go:69-74 | the URI is the one of the last platform for the running OS, or empty when no platform is for it |
| PluginInstall.LastURI | cmd/skaffold/app/cmd/plugin/install.go:69-74 | the URI of the last platform for the running OS, empty when there is none; specified by `PluginInstall.LastURIIsLastForOS` and computed by `PluginInstall.SelectURI` |
| PluginInstall.NoPlatformNoURI | cmd/skaffold/app/cmd/plugin/install.go:69-74 | with no platform for the running OS the URI stays empty |
| PluginInstall.LastPlatformURI | cmd/skaffold/app/cmd/plugin/install.go:70-74 | later platforms for the OS override earlier ones |
| PluginInstall.SelectURI | cmd/skaffold/app/cmd/plugin/install.go:69-74 | the platform loop computes the last URI for the running OS |
| PluginInstall.InstallManifest | cmd/skaffold/app/cmd/plugin/install.go:68-81 | nothing is downloaded exactly when no URI was found, and then the error names the plugin and the OS; otherwise the plugin is downloaded from that URI and the download's error returned |
| PluginInstall.RunInstallOutcome | cmd/skaffold/app/cmd/plugin/install.go:44-66 | `runInstall` as intended: the wrapped list error, the unknown-builder error, or the download of the last manifest named after the builder; specified by `PluginInstall.RunInstallDownloadsRequested` and computed by `PluginInstall.RunInstall` |
| PluginInstall.RunInstallDownloadsRequested | cmd/skaffold/app/cmd/plugin/install.go:44-66 | an unreadable list fails wrapped as "getting builder manifests" with no download; an unknown builder fails with no download; any download is of the requested builder, from a platform for the running OS |
| PluginInstall.LastURIFromPlatform | cmd/skaffold/app/cmd/plugin/install.go:69-74 | a non-empty URI chosen belongs to a platform for the running OS |
| PluginInstall.RunInstallAsWrittenOutcome | cmd/skaffold/app/cmd/plugin/install.go:44-66 | as written, once any manifest matches, the last manifest of the list is the one installed |
| PluginInstall.AsWrittenInstallsOtherBuilder | cmd/skaffold/app/cmd/plugin/install.go:44-66 | as written, asking for the first of two builders downloads the second whenever it has a build for the running OS |
| PluginInstall.RunInstall | cmd/skaffold/app/cmd/plugin/install.go:44-81 | the command's error and download are those of the intended outcome above |
| Instrumentation.RecordError | pkg/skaffold/instrumentation/meter.go:90-95 | at the end of the list an `error` iteration is appended first; the iteration at the index takes the code, keeping its intent otherwise; every other iteration is unchanged |
| Instrumentation.RecordErrorLastWins | pkg/skaffold/instrumentation/meter.go:90-95 | recording at the same index twice keeps only the second code and never adds a second iteration |
| Instrumentation.Meter.constructor | pkg/skaffold/instrumentation/meter.go:54-67 | the initial meter has recorded nothing and its exit and error codes are zero |
| Instrumentation.Meter.InitMeter | pkg/skaffold/instrumentation/meter.go:69-80 | records the command and the number of configured artifacts; no other field changes |
| Instrumentation.Meter.SetErrorCode | pkg/skaffold/instrumentation/meter.go:82-84 | overwrites the error code and nothing else |
| Instrumentation.Meter.AddDevIteration | pkg/skaffold/instrumentation/meter.go:86-88 | appends one iteration with the intent and the OK code |
| Instrumentation.Meter.AddDevIterationErr | pkg/skaffold/instrumentation/meter.go:90-95 | the iterations become `RecordError` of the previous ones |
| Instrumentation.Meter.AddFlag | pkg/skaffold/instrumentation/meter.go:97-99 | the flag is filed under its name, replacing any flag of the same name |
| InnerLoop.Sub | hack/perf/metrics/inner_loop.go:53 | the difference of two whole-second times in nanoseconds, saturated at the bounds of a 64-bit `Duration` |
| InnerLoop.Step | hack/perf/metrics/inner_loop.go:37-72 | one entry of the log: a successful dev-loop event clears the starts and appends the metric; build, deploy and status-check events set starts or times as the switch does |
| InnerLoop.RunFrom | hack/perf/metrics/inner_loop.go:36-73 | the loop over the log from a given state; computed by `InnerLoop.SplitEntriesByDevLoop` and specified by `InnerLoop.OneMetricPerLoop` and `InnerLoop.RunFromAppend` |
| InnerLoop.SplitEntriesByDevLoop | hack/perf/metrics/inner_loop.go:31-75 | the loop over the log computes the metrics of the entry-by-entry specification `RunFrom` |
| InnerLoop.OneMetricPerLoop | hack/perf/metrics/inner_loop.go:40-46 | one metric is appended per successful dev-loop event, and metrics already recorded never change |
| InnerLoop.RunFromAppend | hack/perf/metrics/inner_loop.go:36-73 | the log is processed one entry at a time: a log in two parts runs the second part from the state the first left |
| InnerLoop.BuildTimeFromFirstStart | hack/perf/metrics/inner_loop.go:47-54 | only the first build start of a dev loop counts: a build started, completed, restarted and completed is timed from its first start |
| InnerLoop.DeployTimeFromLastStart | hack/perf/metrics/inner_loop.go:55-63 | every deploy start counts: a deploy is timed from its latest start |
| InnerLoop.StatusCheckTime | hack/perf/metrics/inner_loop.go:64-71 | the status-check time runs from `Started` to `Succeeded` |
| InnerLoop.StatusCheckTimeCarriesOver | hack/perf/metrics/inner_loop.go:34-46 | the metric being filled is never reset, so without a status-check event its status-check time carries over, even into the next dev loop |
| InnerLoop.LoopEndClearsStarts | hack/perf/metrics/inner_loop.go:43-46 | a successful dev-loop event clears the three start times, records the metric being filled and keeps filling it |
| InnerLoop.SampleLoops | hack/perf/metrics/inner_loop_test.go:13-110 | the sample log gives build, deploy and status-check times of 20, 10 and 5 seconds, then 10, 20 and 0 |
| InnerLoop.FirstLoopRun | hack/perf/metrics/inner_loop_test.go:34-65 | after the first sample loop its metric is recorded and the start times are cleared |
| InnerLoop.FirstLoopBuild | hack/perf/metrics/inner_loop_test.go:34-48 | the first sample build takes 20 seconds |
| InnerLoop.SecondLoopRun | hack/perf/metrics/inner_loop_test.go:66-108 | the second sample loop records a second metric: builds of 10 seconds, a deploy of 20 and an instant status check |
| InnerLoop.SecondLoopBuilds | hack/perf/metrics/inner_loop_test.go:66-92 | the second sample loop's two builds are timed from the first start, 10 seconds |
| Watch.ChangedIffSnapshotsDiffer | pkg/skaffold/watch/watch.go:110-117 | the events between two snapshots are non-empty exactly when the snapshots differ |
| Watch.ListsMultiset | pkg/skaffold/watch/watch.go:130-132 | a listing of a set's elements, each once, has the set's elements as its multiset |
| Watch.Enumerate | pkg/skaffold/watch/watch.go:130-132 | iterating over a map's keys lists each key exactly once, in an order left open |
| Watch.Diff | pkg/skaffold/watch/watch.go:110 | the events list the added, modified and deleted paths between two snapshots, each exactly once |
| Watch.FirstFailure | pkg/skaffold/watch/watch.go:105-109 | every snapshot before the index succeeded, and the one at the index, if any, failed |
| Watch.Fires | pkg/skaffold/watch/watch.go:125-126 | the debounce rule: without debounce a tick with changes fires; with debounce a quiet tick after marked changes fires |
| Watch.ChangedCount | pkg/skaffold/watch/watch.go:104-117 | the tick's `changed` counter: how many components' new snapshots differ from the stored ones; specified by `Watch.ChangedCountIsCardinality` |
| Watch.ChangedIndices | pkg/skaffold/watch/watch.go:112-113 | only components below the bound are marked |
| Watch.ChangedCountIsCardinality | pkg/skaffold/watch/watch.go:104-117 | the tick's `changed` counter equals the number of components it marked |
| Watch.RefreshComponent | pkg/skaffold/watch/watch.go:110-117 | a component is marked exactly when its new snapshot differs from the stored one, and then takes the new snapshot and its events; otherwise it is unchanged |
| Watch.WatchList.constructor | pkg/skaffold/watch/watch.go:44-48 | a new watcher has no components, no subscribers and no marked component, and keeps the trigger's debounce setting |
| Watch.WatchList.Subscribe | pkg/skaffold/watch/watch.go:61-63 | the subscriber is appended; components and marks are unchanged |
| Watch.WatchList.HandleEvent | pkg/skaffold/watch/watch.go:65-69 | the event and its data are delivered to every subscriber in subscription order |
| Watch.WatchList.Register | pkg/skaffold/watch/watch.go:72-84 | a failed listing is wrapped as "listing files" and adds nothing; otherwise one component with that snapshot and no events is appended |
| Watch.WatchList.Start | pkg/skaffold/watch/watch.go:88-96 | a trigger that fails to start ends the run wrapped as "unable to start trigger"; otherwise no component is marked |
| Watch.WatchList.Refresh | pkg/skaffold/watch/watch.go:104-118 | components are re-snapshotted in order up to the first failed listing; those before it are refreshed, the rest untouched, the changed ones marked and counted |
| Watch.WatchList.Fire | pkg/skaffold/watch/watch.go:127-144 | the marked components' handlers run in registration order, then every subscriber gets "change" with all their paths, then the final callback; the marks are cleared only when it succeeds, and its failure is wrapped as "calling final callback" |
| Watch.WatchList.Step | pkg/skaffold/watch/watch.go:99-147 | cancellation ends the run without error; a tick that hits a failed listing ends it wrapped as "listing files"; otherwise it fires exactly when the debounce rule holds (without debounce, when something changed this tick; with debounce, when nothing changed this tick but something is marked) |
| Dev.ApplyAllEffect | pkg/skaffold/runner/dev.go:103-131 | the handlers only queue dirty artifacts, in firing order, and raise flags: a test or deployer dependency change asks for a redeploy, a configuration change for a reload; nothing is queued for sync or rebuild |
| Dev.ApplyAll | pkg/skaffold/runner/dev.go:103-131 | the accumulator after a fire: each handler call applies its closure, while notifications and the final callback leave it alone; specified by `Dev.ApplyAllEffect` and computed by `Dev.DevLoop.RunHandlers` |
| Dev.ClassifyFailsOnFirstError | pkg/skaffold/runner/dev.go:56-60 | classification fails exactly when building some artifact's sync item fails, and then with the first such failure wrapped as "sync" |
| Dev.ClassifyPartitions | pkg/skaffold/runner/dev.go:56-66 | a successful classification puts each dirty artifact in exactly one queue: resync when it has a sync item, rebuild when it has none; the rest of the accumulator is untouched |
| Dev.Classify | pkg/skaffold/runner/dev.go:56-66 | the first loop of `onChange`: an item joins the resync queue, no item the rebuild queue, and an error ends the pass wrapped "sync"; specified by `Dev.ClassifyPartitions` and `Dev.ClassifyFailsOnFirstError` |
| Dev.Decide | pkg/skaffold/runner/dev.go:68-90 | the `switch` of `onChange`: reload, then resync, then rebuild, then redeploy, else nothing; specified by `Dev.DecideIsHighestPending` |
| Dev.DecideIsHighestPending | pkg/skaffold/runner/dev.go:68-90 | the switch runs the pending branch of highest priority (reload, resync, rebuild, redeploy), and no branch exactly when nothing is pending |
| Dev.FirstSyncFailure | pkg/skaffold/runner/dev.go:72-79 | every sync before the index succeeds, and the one at the index, if any, fails |
| Dev.DevLoop.constructor | pkg/skaffold/runner/dev.go:50 | the accumulator starts empty and the logger unmuted |
| Dev.DevLoop.RunHandlers | pkg/skaffold/runner/dev.go:105-130 | running a fire's handler calls in order leaves the accumulator as specified by `ApplyAll` |
| Dev.DevLoop.SyncItems | pkg/skaffold/runner/dev.go:72-79 | the items are synced in order up to and including the first failure; it reports failure exactly when some sync fails |
| Dev.DevLoop.OnChange | pkg/skaffold/runner/dev.go:51-94 | the logger is muted, the dirty artifacts classified, and the highest-priority pending branch run: a reload returns "configuration changed"; sync, rebuild and redeploy failures return no error and leave the logger muted; only a pass that completes unmutes it; the accumulator is always reset |
| Dev.DevLoop.ClassifyAll | pkg/skaffold/runner/dev.go:56-66 | the classification loop computes exactly `Classify` over the accumulator's dirty artifacts |
| Dev.FirstFailureAt | pkg/skaffold/runner/dev.go:72-79 | the first failing sync is the unique index before which all succeed and at which one fails |
| Dev.ArtifactHandlers | pkg/skaffold/runner/dev.go:97-109 | one artifact handler per artifact, in order |
| Dev.FirstListingFailure | pkg/skaffold/runner/dev.go:97-133 | every registration before the index lists its files, and the one at the index, if any, fails |
| Dev.ComponentsFor | pkg/skaffold/watch/watch.go:78-82 | one component per handler, in order, each with its listing and no events |
| Dev.RegisterAll | pkg/skaffold/runner/dev.go:97-133 | the components up to the first failing listing are registered, in order, and that failure is returned with its registration's context |
| Dev.FirstListingAt | pkg/skaffold/runner/dev.go:97-133 | the first failing listing is the unique index before which all succeed and at which one fails |
| Dev.StartDev | pkg/skaffold/runner/dev.go:37-153 | registration in order; the first run happens only when all succeed; then the logger when tailing, then each port forwarder in turn; the first failure ends `Dev` with its own wrapped error before anything after it starts, and only when nothing fails is the watch loop reached |
| Dev.RegistrationsSkipNonTargets | pkg/skaffold/runner/dev.go:97-133 | exactly the target artifacts get a watcher component, and the test, deployer and configuration watchers always come last, in that order |
| Dev.Registrations | pkg/skaffold/runner/dev.go:97-133 | the components `Dev` registers: each target artifact, then the test, deployer and configuration dependencies; specified by `Dev.RegistrationsSkipNonTargets` |
| Dev.RetrieveForwarders | pkg/skaffold/runner/dev.go:156-167 | the port forwarders `Dev` starts: the resource forwarder when port forwarding is on, then the automatic pod forwarder when that is on |

## Left out

- I/O, processes and the network are not modelled: docker, kubectl, bazel, Gradle, Maven, git, HTTP and the file system. Each is an input holding its answer. This covers the `kubectl port-forward` processes and the HTTP probe in `portForwardSuccessful`. It also covers the `wait.PollImmediate` retry loop, which is reduced to whether some attempt connected, and the plugin installer's `downloadBinary`.
- Concurrency is not modelled. The goroutine per artifact in `imageTags` is sequentialised: results are consumed in artifact order, as the source reads them. The pod-watch goroutines become a sequence of pod events handed to `Start`. Cancellation is a value.
- Go map iteration order is unspecified in the model, through `:|` choice or an explicit order parameter. Lemmas hold for every order, or state their result as a set or multiset. `Sync.IntersectFrom` takes one order per file, and `Sync.NewItem` separate ones for its two `intersect` calls, since Go draws a fresh order at each range.
- Console and log output is not modelled (`color.Fprintf`, `logrus`, `fmt.Println`), and neither are events or timings (`event.*`, `time.Since`).
- `sync.Perform`, which runs commands in containers, is not part of this model.
- `KubectlDeployer.Cleanup` is not part of this model. `Deploy`'s `ReplaceImages`, `SetLabels` and manifest transforms are inputs, each a success or an error.
- `RetrieveServicesResources` and the service forwarding in the two port forwarders' `Start` are not modelled (pkg/skaffold/kubernetes/services.go and port_forward_service.go call `getCurrentEntry` with signatures defined nowhere).
- `BaseForwarder.forwardEntry` is not part of this model. Each forwarder's own `forward` is modelled.
- `retrieveArtifactCache` and `saveArtifactCache` are not part of this model: the cache file is read and written by them. The decoded cache is an input.
- Collaborators outside the core are not part of this model: `build.MergeWithPreviousBuilds`, `build.InSequence`, `util.GetAvailablePort`, `util.HasMeta`, and the watcher's `events` and `Stat` in pkg/skaffold/watch/changes.go.
  - `MergeWithPreviousBuilds` is given a definition: the new builds followed by every previous build whose image was not rebuilt.
  - The port allocator is a function parameter.
  - `Watch.Diff` lists the added, modified and deleted paths of two snapshots.
- `SkaffoldRunner.Run`, `NewForConfig`, the tester and the labellers are not part of this model.
- The docker client's own build (the non-CLI path) is an input holding the image ID it returns.
- The bazel output directory comes from `bazel info`, so it is an input.
- `generateJibImageRef`, which hashes with SHA-1, is an input to `JibGradle.BuildJibGradle`. `util.RandomID` is an input to that function as well.
- The YAML codec is not part of this model:
  - `ParseKubernetesYaml`'s reader and decoder are not part of this model; `KubeParse` starts from the decoded YAML tree.
  - The strict unmarshal in both schemas' `Parse` is an input.
  - In v1alpha1 the decoder's partial result is kept together with its error.
- The configuration name constants (builder, deployer, tagger names) are modelled as enumerations rather than strings.
- The v1alpha1 defaults use `constants.DefaultDevTagStrategy` and `constants.DefaultRunTagStrategy`, which pkg/skaffold/constants/constants.go does not define in this revision, so the two strategies are a parameter.
- `InitMeter`'s platform, builder, sync and deployer names are read through the reflective `yamltags` package and are not modelled. Neither are the meter's start time, version, OS and architecture.
- The GitHub organisation prompt and `listOrgs`'s git call are not part of this model. Only `parseRemotes` is modelled, on git's output.
- Inner-loop times are kept as integer nanoseconds. The conversion to floating-point seconds is not modelled, and neither is the reading of the event file.
- Paths use `/` as the separator.
- `BazelBuild.Join` puts a `/` between the directory and the path and stops there. Go's `filepath.Join` also cleans the result, so a trailing `/` on the directory or `.` and `..` segments would come out differently.
- `sync.NewItem` is modelled with the three arguments of its definition. The fourth argument that `Dev` passes, the insecure registries, is dropped.
- `KubeParse.ParseImages`: requires `KubeParse.Valid`, which leaves out the two kinds of document on which `parseImagesFromYaml` panics on a failed type assertion: a mapping key that is not a string (pkg/skaffold/kubernetes/parse.go:70), and a value under `image` that is not a string or is absent, such as `image: 5` or a bare `image:` (parse.go:75). Neither panic is modelled.
- `KubePortForward.UpdateEntryWithPodDetails` calls the `kubernetes` package's own `retrieveContainerNameAndPortNameFromPod` (pkg/skaffold/kubernetes/port_forward.go:235), which no file of this revision defines. The model assumes it is the `portforward` package's version, `PodForwarder.RetrieveContainerNameAndPortNameFromPod` (pod_forwarder.go:193-208, init containers first, first match wins). Every contract of `KubePortForward` about container and port names rests on that assumption.
- `Instrumentation.Meter.AddDevIterationErr`: requires the index to be at most the number of iterations. A larger index panics in Go (index out of range), and that panic is not modelled.
- `KubePortForward.Display` only states that the printed form differs from the entry's key. It does not pin the `type/name/namespace:port` layout down in its contract.
- `InnerLoop.BuildTimeFromFirstStart` assumes the first start is not at the zero `time.Time`. A start at that instant reads as no start in Go, since the source tests `IsZero`.
- `Runner.SkaffoldRunner.BuildAndTest` leaves out `RetagLocalImages` and a failing `CacheArtifacts`, which can only warn.

## Findings

| source | as written | input that shows it | evidently intended | confidence | as-written member | corrected member |
|---|---|---|---|---|---|---|
| cmd/skaffold/app/cmd/plugin/install.go:50-55 | `manifest = &m` takes the address of the range variable. Before Go 1.22 there is one such variable for the whole loop, so after any match the pointer addresses the last manifest of the list. | manifests `[a, b]` with `a.name` the requested builder and `b.name` different: `b` is installed | the manifest whose name matches (the last such) | not executed | PluginInstall.SelectManifestAsWritten, PluginInstall.PointerTargetsWrongManifest, PluginInstall.AsWrittenInstallsOtherBuilder | PluginInstall.SelectManifest, PluginInstall.RunInstallDownloadsRequested |
