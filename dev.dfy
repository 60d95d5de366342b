/**
 * The dev loop of the runner: the change accumulator that the watcher's
 * handlers fill, the `onChange` pass that classifies dirty artifacts as sync
 * or rebuild and runs the one branch of highest priority, and the
 * registration / first-run sequence of `Dev`. The sync-item constructor
 * (`sync.NewItem` with the current builds), the syncer, the
 * build-test-deploy pass, the deployer, the logger and the port forwarders
 * are collaborators: what they return is a parameter.
 */
module Dev {
  import opened Errors
  import opened Artifacts
  import Seqs
  import Watch
  import Sync

  /** What a registered watcher component does when it fires: the four closures of `Dev`. */
  datatype Handler =
    | ArtifactChanged(artifact: Artifact)
    | TestDepsChanged
    | DeployDepsChanged
    | ConfigChanged

  /** An artifact whose dependencies changed, with the events of that change. */
  datatype Dirty = Dirty(artifact: Artifact, events: Watch.Events)

  /** The `changes` accumulator shared by the handlers and `onChange`. */
  datatype Changes = Changes(
    dirtyArtifacts: seq<Dirty>,
    needsRebuild: seq<Artifact>,
    needsResync: seq<Sync.Item>,
    needsRedeploy: bool,
    needsReload: bool)

  /** The accumulator after `reset`. */
  const NoChanges := Changes([], [], [], false, false)

  /** `ErrorConfigurationChanged`. */
  const ErrorConfigurationChanged := "configuration changed"

  /** The handler closures' effect on the accumulator. */
  function Apply(c: Changes, h: Handler, e: Watch.Events): Changes
  {
    match h
    case ArtifactChanged(a) => c.(dirtyArtifacts := c.dirtyArtifacts + [Dirty(a, e)])
    case TestDepsChanged => c.(needsRedeploy := true)
    case DeployDepsChanged => c.(needsRedeploy := true)
    case ConfigChanged => c.(needsReload := true)
  }

  /** The accumulator after a fire's actions ran: handler calls update it, notifications and the final callback do not. */
  function ApplyAll<S>(c: Changes, actions: seq<Watch.Action<Handler, S>>): Changes
  {
    if |actions| == 0 then c
    else
      var c' := ApplyAll(c, actions[..|actions| - 1]);
      match actions[|actions| - 1]
      case CallHandler(h, e) => Apply(c', h, e)
      case _ => c'
  }

  /** The artifacts that a sequence of actions reports dirty, in order, with their events. */
  ghost function DirtyOf<S>(actions: seq<Watch.Action<Handler, S>>): seq<Dirty>
  {
    if |actions| == 0 then []
    else
      var a := actions[|actions| - 1];
      DirtyOf(actions[..|actions| - 1])
        + (if a.CallHandler? && a.handler.ArtifactChanged? then [Dirty(a.handler.artifact, a.events)] else [])
  }

  /**
   * Handler calls only ever queue dirty artifacts and raise the redeploy and
   * reload flags: a test or deployer dependency change asks for a redeploy, a
   * configuration change for a reload, and nothing is queued for sync or
   * rebuild.
   */
  lemma {:induction false} ApplyAllEffect<S>(c: Changes, actions: seq<Watch.Action<Handler, S>>)
    ensures ApplyAll(c, actions).dirtyArtifacts == c.dirtyArtifacts + DirtyOf(actions)
    ensures ApplyAll(c, actions).needsResync == c.needsResync
    ensures ApplyAll(c, actions).needsRebuild == c.needsRebuild
    ensures ApplyAll(c, actions).needsRedeploy <==> (c.needsRedeploy ||
      exists i :: 0 <= i < |actions| && actions[i].CallHandler? && actions[i].handler in {TestDepsChanged, DeployDepsChanged})
    ensures ApplyAll(c, actions).needsReload <==> (c.needsReload ||
      exists i :: 0 <= i < |actions| && actions[i].CallHandler? && actions[i].handler == ConfigChanged)
  {
    if |actions| > 0 {
      var init := actions[..|actions| - 1];
      ApplyAllEffect(c, init);
      assert forall i :: 0 <= i < |init| ==> init[i] == actions[i];
    }
  }

  // ---------------------------------------------------------------------------
  // Classification of dirty artifacts

  /** The first loop of `onChange` from `acc` on: an item goes to resync, no item to rebuild, an error ends the pass. */
  function Classify(itemOf: Dirty -> Result<Option<Sync.Item>>, dirty: seq<Dirty>, acc: Changes): Result<Changes>
  {
    if |dirty| == 0 then Ok(acc)
    else
      match itemOf(dirty[0])
      case Err(e) => Err(Wrap("sync", e))
      case Ok(Some(s)) => Classify(itemOf, dirty[1..], acc.(needsResync := acc.needsResync + [s]))
      case Ok(None) => Classify(itemOf, dirty[1..], acc.(needsRebuild := acc.needsRebuild + [dirty[0].artifact]))
  }

  /** The sync items of the dirty artifacts that have one, in order. */
  function Items(itemOf: Dirty -> Result<Option<Sync.Item>>, dirty: seq<Dirty>): seq<Sync.Item>
  {
    if |dirty| == 0 then []
    else
      var r := itemOf(dirty[0]);
      (if r.Ok? && r.value.Some? then [r.value.value] else []) + Items(itemOf, dirty[1..])
  }

  /** The dirty artifacts that have no sync item, in order. */
  function Rebuilds(itemOf: Dirty -> Result<Option<Sync.Item>>, dirty: seq<Dirty>): seq<Artifact>
  {
    if |dirty| == 0 then []
    else
      var r := itemOf(dirty[0]);
      (if r.Ok? && r.value.None? then [dirty[0].artifact] else []) + Rebuilds(itemOf, dirty[1..])
  }

  /**
   * Classification fails exactly when some artifact's item construction
   * fails, and the error is the first such failure wrapped with "sync".
   */
  lemma {:induction false} ClassifyFailsOnFirstError(itemOf: Dirty -> Result<Option<Sync.Item>>, dirty: seq<Dirty>, acc: Changes)
    ensures Classify(itemOf, dirty, acc).Err? <==>
      exists i :: 0 <= i < |dirty| && itemOf(dirty[i]).Err?
    ensures forall i :: (0 <= i < |dirty| && itemOf(dirty[i]).Err?
      && forall j :: 0 <= j < i ==> itemOf(dirty[j]).Ok?) ==>
      Classify(itemOf, dirty, acc) == Err(Wrap("sync", itemOf(dirty[i]).error))
    decreases |dirty|
  {
    if |dirty| > 0 {
      var r := itemOf(dirty[0]);
      var rest := dirty[1..];
      assert forall i :: 0 <= i < |rest| ==> rest[i] == dirty[i + 1];
      if r.Ok? {
        var acc' := if r.value.Some? then acc.(needsResync := acc.needsResync + [r.value.value])
                    else acc.(needsRebuild := acc.needsRebuild + [dirty[0].artifact]);
        ClassifyFailsOnFirstError(itemOf, rest, acc');
        forall i | 0 <= i < |dirty| && itemOf(dirty[i]).Err?
          && (forall j :: 0 <= j < i ==> itemOf(dirty[j]).Ok?)
          ensures Classify(itemOf, dirty, acc) == Err(Wrap("sync", itemOf(dirty[i]).error))
        {
          assert i > 0;
          assert forall j :: 0 <= j < i - 1 ==> itemOf(rest[j]).Ok?;
        }
      }
    }
  }

  /**
   * A successful classification puts every dirty artifact in exactly one
   * queue: resync when it has an item, rebuild when it has none; the other
   * fields of the accumulator are untouched.
   */
  lemma {:induction false} ClassifyPartitions(itemOf: Dirty -> Result<Option<Sync.Item>>, dirty: seq<Dirty>, acc: Changes)
    requires Classify(itemOf, dirty, acc).Ok?
    ensures Classify(itemOf, dirty, acc).value == acc.(
      needsResync := acc.needsResync + Items(itemOf, dirty),
      needsRebuild := acc.needsRebuild + Rebuilds(itemOf, dirty))
    ensures |Items(itemOf, dirty)| + |Rebuilds(itemOf, dirty)| == |dirty|
    decreases |dirty|
  {
    if |dirty| > 0 {
      var r := itemOf(dirty[0]);
      var rest := dirty[1..];
      if r.value.Some? {
        var acc' := acc.(needsResync := acc.needsResync + [r.value.value]);
        assert Classify(itemOf, dirty, acc) == Classify(itemOf, rest, acc');
        ClassifyPartitions(itemOf, rest, acc');
        assert Items(itemOf, dirty) == [r.value.value] + Items(itemOf, rest);
        assert Rebuilds(itemOf, dirty) == Rebuilds(itemOf, rest);
        assert acc.needsResync + Items(itemOf, dirty) == acc'.needsResync + Items(itemOf, rest);
      } else {
        var acc' := acc.(needsRebuild := acc.needsRebuild + [dirty[0].artifact]);
        assert Classify(itemOf, dirty, acc) == Classify(itemOf, rest, acc');
        ClassifyPartitions(itemOf, rest, acc');
        assert Items(itemOf, dirty) == Items(itemOf, rest);
        assert Rebuilds(itemOf, dirty) == [dirty[0].artifact] + Rebuilds(itemOf, rest);
        assert acc.needsRebuild + Rebuilds(itemOf, dirty) == acc'.needsRebuild + Rebuilds(itemOf, rest);
      }
    }
  }

  // ---------------------------------------------------------------------------
  // The priority switch

  /** The branches of `onChange`'s switch, highest priority first. */
  datatype Branch = ReloadBranch | ResyncBranch | RebuildBranch | RedeployBranch | NoBranch

  /** The `switch` of `onChange`. */
  function Decide(c: Changes): Branch
  {
    if c.needsReload then ReloadBranch
    else if |c.needsResync| > 0 then ResyncBranch
    else if |c.needsRebuild| > 0 then RebuildBranch
    else if c.needsRedeploy then RedeployBranch
    else NoBranch
  }

  /** Whether the accumulator holds work for a branch. */
  predicate Pending(c: Changes, b: Branch)
  {
    match b
    case ReloadBranch => c.needsReload
    case ResyncBranch => c.needsResync != []
    case RebuildBranch => c.needsRebuild != []
    case RedeployBranch => c.needsRedeploy
    case NoBranch => false
  }

  function Rank(b: Branch): nat
  {
    match b
    case ReloadBranch => 0
    case ResyncBranch => 1
    case RebuildBranch => 2
    case RedeployBranch => 3
    case NoBranch => 4
  }

  /** The switch runs the pending branch of highest priority, and no branch only when nothing is pending. */
  lemma DecideIsHighestPending(c: Changes)
    ensures Decide(c) == NoBranch <==> forall b :: !Pending(c, b)
    ensures Decide(c) != NoBranch ==> Pending(c, Decide(c))
    ensures forall b :: Pending(c, b) ==> Rank(Decide(c)) <= Rank(b)
  {
    if Decide(c) == NoBranch {
      forall b ensures !Pending(c, b) {
        match b
        case ReloadBranch =>
        case ResyncBranch =>
        case RebuildBranch =>
        case RedeployBranch =>
        case NoBranch =>
      }
    } else {
      assert Pending(c, Decide(c));
    }
  }

  // ---------------------------------------------------------------------------
  // The pass

  /** What one pass of `onChange` did. */
  datatype Pass =
    | Aborted
    | Reloaded
    | Synced(attempted: seq<Sync.Item>)
    | Rebuilt(artifacts: seq<Artifact>)
    | Redeployed
    | Idle

  /** Index of the first item whose sync fails, or the count when none fails. */
  function FirstSyncFailure(items: seq<Sync.Item>, syncer: Sync.Item -> Option<string>): (k: nat)
    ensures k <= |items|
    ensures forall j :: 0 <= j < k ==> syncer(items[j]).None?
    ensures k < |items| ==> syncer(items[k]).Some?
  {
    if |items| == 0 then 0
    else if syncer(items[0]).Some? then 0
    else 1 + FirstSyncFailure(items[1..], syncer)
  }

  class DevLoop {
    /** The accumulator. */
    var changed: Changes
    /** Whether the logger is muted. */
    var muted: bool

    constructor ()
      ensures changed == NoChanges && !muted
    {
      changed := NoChanges;
      muted := false;
    }

    /** Runs the handler calls of a fire, in order, against the accumulator. */
    method RunHandlers<S>(actions: seq<Watch.Action<Handler, S>>)
      modifies this`changed
      ensures changed == ApplyAll(old(changed), actions)
    {
      var i := 0;
      while i < |actions|
        invariant 0 <= i <= |actions|
        invariant changed == ApplyAll(old(changed), actions[..i])
      {
        assert actions[..i + 1][..i] == actions[..i];
        if actions[i].CallHandler? {
          changed := Apply(changed, actions[i].handler, actions[i].events);
        }
        i := i + 1;
      }
      assert actions[..|actions|] == actions;
    }

    /** The syncs of the resync branch: items in order, stopping at the first failure. */
    static method SyncItems(items: seq<Sync.Item>, syncer: Sync.Item -> Option<string>) returns (attempted: seq<Sync.Item>, failed: bool)
      ensures failed <==> FirstSyncFailure(items, syncer) < |items|
      ensures attempted == if failed then items[..FirstSyncFailure(items, syncer) + 1] else items
    {
      var i := 0;
      while i < |items|
        invariant 0 <= i <= |items|
        invariant forall j :: 0 <= j < i ==> syncer(items[j]).None?
      {
        if syncer(items[i]).Some? {
          FirstFailureAt(items, syncer, i);
          return items[..i + 1], true;
        }
        i := i + 1;
      }
      FirstFailureAt(items, syncer, |items|);
      return items, false;
    }

    /**
     * One `onChange` pass. The logger is muted first; the dirty artifacts are
     * classified; then the pending branch of highest priority runs: a reload
     * returns `ErrorConfigurationChanged`, sync / rebuild / redeploy failures
     * are swallowed (nil) with the logger left muted, and only a pass that
     * falls through the switch unmutes it. Whatever happened, the accumulator
     * is reset, so lower-priority work found in the pass is dropped.
     */
    method OnChange(itemOf: Dirty -> Result<Option<Sync.Item>>, syncer: Sync.Item -> Option<string>,
                    rebuild: seq<Artifact> -> Option<string>, redeployErr: Option<string>)
      returns (err: Option<string>, pass: Pass)
      modifies this
      ensures changed == NoChanges
      ensures var cl := Classify(itemOf, old(changed).dirtyArtifacts, old(changed));
        if cl.Err? then err == Some(cl.error) && pass == Aborted && muted
        else
          match Decide(cl.value)
          case ReloadBranch => err == Some(ErrorConfigurationChanged) && pass == Reloaded && muted
          case ResyncBranch =>
            var items := cl.value.needsResync;
            var k := FirstSyncFailure(items, syncer);
            err == None && pass == Synced(if k < |items| then items[..k + 1] else items) && muted == (k < |items|)
          case RebuildBranch =>
            err == None && pass == Rebuilt(cl.value.needsRebuild) && muted == rebuild(cl.value.needsRebuild).Some?
          case RedeployBranch => err == None && pass == Redeployed && muted == redeployErr.Some?
          case NoBranch => err == None && pass == Idle && !muted
    {
      muted := true;
      var cl := ClassifyAll(itemOf, changed);
      changed := NoChanges;
      if cl.Err? {
        return Some(cl.error), Aborted;
      }
      var c := cl.value;
      match Decide(c) {
      case ReloadBranch =>
        return Some(ErrorConfigurationChanged), Reloaded;
      case ResyncBranch =>
        var attempted, failed := SyncItems(c.needsResync, syncer);
        pass := Synced(attempted);
        if failed {
          return None, pass;
        }
      case RebuildBranch =>
        pass := Rebuilt(c.needsRebuild);
        if rebuild(c.needsRebuild).Some? {
          return None, pass;
        }
      case RedeployBranch =>
        pass := Redeployed;
        if redeployErr.Some? {
          return None, pass;
        }
      case NoBranch =>
        pass := Idle;
      }
      muted := false;
      err := None;
    }

    /** The classification loop of `onChange` over the accumulator's dirty artifacts. */
    static method ClassifyAll(itemOf: Dirty -> Result<Option<Sync.Item>>, c0: Changes) returns (r: Result<Changes>)
      ensures r == Classify(itemOf, c0.dirtyArtifacts, c0)
    {
      var c := c0;
      var dirty := c0.dirtyArtifacts;
      var i := 0;
      while i < |dirty|
        invariant 0 <= i <= |dirty|
        invariant Classify(itemOf, dirty[i..], c) == Classify(itemOf, dirty, c0)
      {
        var d := dirty[i];
        assert dirty[i..][1..] == dirty[i + 1..];
        var s := itemOf(d);
        if s.Err? {
          return Err(Wrap("sync", s.error));
        }
        if s.value.Some? {
          c := c.(needsResync := c.needsResync + [s.value.value]);
        } else {
          c := c.(needsRebuild := c.needsRebuild + [d.artifact]);
        }
        i := i + 1;
      }
      r := Ok(c);
    }
  }

  lemma {:induction false} FirstFailureAt(items: seq<Sync.Item>, syncer: Sync.Item -> Option<string>, i: nat)
    requires i <= |items|
    requires forall j :: 0 <= j < i ==> syncer(items[j]).None?
    requires i < |items| ==> syncer(items[i]).Some?
    ensures FirstSyncFailure(items, syncer) == i
    decreases i
  {
    if i > 0 {
      FirstFailureAt(items[1..], syncer, i - 1);
    }
  }

  // ---------------------------------------------------------------------------
  // Registration and the first run

  /** The port forwarders `retrievePortForwarders` creates. */
  datatype ForwarderKind = ResourceForwarder | PodForwarder

  function RetrieveForwarders(portForward: bool, automaticPodForwarding: bool): (r: seq<ForwarderKind>)
  {
    (if portForward then [ResourceForwarder] else []) + (if automaticPodForwarding then [PodForwarder] else [])
  }

  /** The components `Dev` registers, in order: each target artifact, then test, deployer and configuration dependencies. */
  function Registrations(artifacts: seq<Artifact>, isTarget: Artifact -> bool): seq<Handler>
  {
    ArtifactHandlers(Seqs.Filter(artifacts, isTarget)) + [TestDepsChanged, DeployDepsChanged, ConfigChanged]
  }

  function ArtifactHandlers(artifacts: seq<Artifact>): (r: seq<Handler>)
    ensures |r| == |artifacts| && forall i :: 0 <= i < |r| ==> r[i] == ArtifactChanged(artifacts[i])
  {
    seq(|artifacts|, i requires 0 <= i < |artifacts| => ArtifactChanged(artifacts[i]))
  }

  /** The context `Dev` gives a registration failure. */
  function RegisterContext(h: Handler, configFile: string): string
  {
    match h
    case ArtifactChanged(a) => "watching files for artifact " + a.imageName
    case TestDepsChanged => "watching test files"
    case DeployDepsChanged => "watching files for deployer"
    case ConfigChanged => "watching skaffold configuration " + configFile
  }

  /** Index of the first handler whose dependency listing fails, or the count. */
  function FirstListingFailure(hs: seq<Handler>, listing: Handler -> Result<Watch.FileMap>): (k: nat)
    ensures k <= |hs|
    ensures forall j :: 0 <= j < k ==> listing(hs[j]).Ok?
    ensures k < |hs| ==> listing(hs[k]).Err?
  {
    if |hs| == 0 then 0
    else if listing(hs[0]).Err? then 0
    else 1 + FirstListingFailure(hs[1..], listing)
  }

  /** The components registered for handlers `hs`, each with its listing. */
  function ComponentsFor(hs: seq<Handler>, listing: Handler -> Result<Watch.FileMap>): (r: seq<Watch.Component<Handler>>)
    requires forall j :: 0 <= j < |hs| ==> listing(hs[j]).Ok?
    ensures |r| == |hs| && forall j :: 0 <= j < |r| ==> r[j] == Watch.Component(hs[j], listing(hs[j]).value, Watch.NoEvents)
  {
    seq(|hs|, j requires 0 <= j < |hs| => Watch.Component(hs[j], listing(hs[j]).value, Watch.NoEvents))
  }

  /** A register-all outcome: components up to the first failing listing are registered; that failure is returned wrapped twice. */
  ghost predicate Registered<S>(w: Watch.WatchList<Handler, S>, before: seq<Watch.Component<Handler>>, hs: seq<Handler>,
                                listing: Handler -> Result<Watch.FileMap>, configFile: string, err: Option<string>)
    reads w
  {
    var k := FirstListingFailure(hs, listing);
    w.components == before + ComponentsFor(hs[..k], listing)
    && (k < |hs| ==> err == Some(Wrap(RegisterContext(hs[k], configFile), Wrap("listing files", listing(hs[k]).error))))
    && (k == |hs| ==> err == None)
  }

  /** The registration loop of `Dev`; `listing` is the dependency listing each component's `Stat` produces. */
  method RegisterAll<S>(w: Watch.WatchList<Handler, S>, hs: seq<Handler>, listing: Handler -> Result<Watch.FileMap>, configFile: string)
    returns (err: Option<string>)
    requires w.Valid()
    modifies w
    ensures w.Valid() && w.subscribers == old(w.subscribers) && w.changed == old(w.changed)
    ensures Registered(w, old(w.components), hs, listing, configFile, err)
  {
    var i := 0;
    while i < |hs|
      invariant 0 <= i <= |hs|
      invariant w.Valid() && w.subscribers == old(w.subscribers) && w.changed == old(w.changed)
      invariant forall j :: 0 <= j < i ==> listing(hs[j]).Ok?
      invariant w.components == old(w.components) + ComponentsFor(hs[..i], listing)
    {
      var e := w.Register(listing(hs[i]), hs[i]);
      if e.Some? {
        FirstListingAt(hs, listing, i);
        return Some(Wrap(RegisterContext(hs[i], configFile), e.value));
      }
      assert ComponentsFor(hs[..i + 1], listing) == ComponentsFor(hs[..i], listing) + [Watch.Component(hs[i], listing(hs[i]).value, Watch.NoEvents)];
      i := i + 1;
    }
    FirstListingAt(hs, listing, |hs|);
    assert hs[..|hs|] == hs;
    err := None;
  }

  lemma {:induction false} FirstListingAt(hs: seq<Handler>, listing: Handler -> Result<Watch.FileMap>, i: nat)
    requires i <= |hs|
    requires forall j :: 0 <= j < i ==> listing(hs[j]).Ok?
    requires i < |hs| ==> listing(hs[i]).Err?
    ensures FirstListingFailure(hs, listing) == i
    decreases i
  {
    if i > 0 {
      FirstListingAt(hs[1..], listing, i - 1);
    }
  }

  /** How `Dev` ends before its watch loop, or that it reached it. */
  datatype DevOutcome = Failed(error: string) | Watching

  /**
   * `Dev` up to the watch loop: registration of every target artifact and of
   * the test, deployer and configuration dependencies; the first
   * build-test-deploy of all artifacts (`firstRun` is its result); the logger
   * when `tailDev`; then each port forwarder in turn. The first failure ends
   * `Dev` with its wrapped error, before anything after it starts.
   */
  method StartDev<S>(w: Watch.WatchList<Handler, S>, artifacts: seq<Artifact>, isTarget: Artifact -> bool,
                     listing: Handler -> Result<Watch.FileMap>, configFile: string,
                     firstRun: Option<string>, tailDev: bool, loggerErr: Option<string>,
                     portForward: bool, automaticPodForwarding: bool, startErr: ForwarderKind -> Option<string>)
    returns (r: DevOutcome, ranFirst: bool)
    requires w.Valid()
    modifies w
    ensures w.Valid() && w.subscribers == old(w.subscribers) && w.changed == old(w.changed)
    ensures var hs := Registrations(artifacts, isTarget);
      var k := FirstListingFailure(hs, listing);
      var fs := RetrieveForwarders(portForward, automaticPodForwarding);
      w.components == old(w.components) + ComponentsFor(hs[..k], listing)
      && (ranFirst <==> k == |hs|)
      && (k < |hs| ==> r == Failed(Wrap(RegisterContext(hs[k], configFile), Wrap("listing files", listing(hs[k]).error))))
      && (k == |hs| && firstRun.Some? ==> r == Failed(Wrap("exiting dev mode because first run failed", firstRun.value)))
      && (k == |hs| && firstRun.None? && tailDev && loggerErr.Some? ==> r == Failed(Wrap("starting logger", loggerErr.value)))
      && (k == |hs| && firstRun.None? && !(tailDev && loggerErr.Some?) ==>
           (r == Watching <==> forall f :: f in fs ==> startErr(f).None?)
           && (forall i :: 0 <= i < |fs| && startErr(fs[i]).Some? && (forall j :: 0 <= j < i ==> startErr(fs[j]).None?) ==>
                r == Failed(Wrap("starting port-forwarder", startErr(fs[i]).value))))
  {
    ranFirst := false;
    var hs := Registrations(artifacts, isTarget);
    var e := RegisterAll(w, hs, listing, configFile);
    if e.Some? {
      return Failed(e.value), false;
    }
    ranFirst := true;
    if firstRun.Some? {
      return Failed(Wrap("exiting dev mode because first run failed", firstRun.value)), true;
    }
    if tailDev && loggerErr.Some? {
      return Failed(Wrap("starting logger", loggerErr.value)), true;
    }
    var fs := RetrieveForwarders(portForward, automaticPodForwarding);
    var i := 0;
    while i < |fs|
      invariant 0 <= i <= |fs|
      invariant forall j :: 0 <= j < i ==> startErr(fs[j]).None?
    {
      if startErr(fs[i]).Some? {
        return Failed(Wrap("starting port-forwarder", startErr(fs[i]).value)), true;
      }
      i := i + 1;
    }
    r := Watching;
  }

  /** Artifacts that are not build targets get no watcher component; the three configuration watchers always come last. */
  lemma RegistrationsSkipNonTargets(artifacts: seq<Artifact>, isTarget: Artifact -> bool)
    ensures forall h :: h in Registrations(artifacts, isTarget) && h.ArtifactChanged? ==> h.artifact in artifacts && isTarget(h.artifact)
    ensures forall a :: a in artifacts && isTarget(a) ==> ArtifactChanged(a) in Registrations(artifacts, isTarget)
    ensures var hs := Registrations(artifacts, isTarget);
      |hs| >= 3 && hs[|hs| - 3..] == [TestDepsChanged, DeployDepsChanged, ConfigChanged]
  {
    var targets := Seqs.Filter(artifacts, isTarget);
    var hs := Registrations(artifacts, isTarget);
    forall h | h in hs && h.ArtifactChanged? ensures h.artifact in artifacts && isTarget(h.artifact) {
      var i :| 0 <= i < |hs| && hs[i] == h;
      assert i < |targets|;
    }
    forall a | a in artifacts && isTarget(a) ensures ArtifactChanged(a) in hs {
      var i :| 0 <= i < |targets| && targets[i] == a;
      assert hs[i] == ArtifactChanged(a);
    }
  }
}
