/**
 * The automatic pod forwarder of pod_forwarder.go: every container port of
 * a selected running pod is forwarded to a local port, filed under its pod
 * key. A pod key seen before keeps its local port; a new one takes a fresh
 * port from the shared set. The Forward and Terminate actions, the port
 * allocator and the pod selector are collaborators.
 */
module PodForwarder {
  import opened Errors
  import opened Strs
  import opened PortForwardEntry
  import Seqs

  datatype ContainerPort = ContainerPort(name: string, containerPort: int)

  datatype Container = Container(name: string, ports: seq<ContainerPort>)

  /** The parts of a `v1.Pod` the forwarders read; `deleting` is a set deletion timestamp. */
  datatype Pod = Pod(
    name: string,
    namespace: string,
    resourceVersion: string,
    initContainers: seq<Container>,
    containers: seq<Container>,
    phase: string,
    deleting: bool)

  /** Port `j` of container `i` is the wanted port. */
  ghost predicate ExposesAt(cs: seq<Container>, port: int, i: int, j: int)
  {
    0 <= i < |cs| && 0 <= j < |cs[i].ports| && cs[i].ports[j].containerPort == port
  }

  /** Port `j` of container `i` is the wanted port and no earlier position, containers first, then ports, is. */
  ghost predicate FirstExposedAt(cs: seq<Container>, port: int, i: int, j: int)
  {
    ExposesAt(cs, port, i, j) && forall i', j' :: ExposesAt(cs, port, i', j') ==> i < i' || (i == i' && j <= j')
  }

  /** The first port at or after `j` of one container that is the wanted port. */
  function FindInPorts(ps: seq<ContainerPort>, port: int, j: nat): (r: Option<nat>)
    requires j <= |ps|
    ensures r.Some? ==> (j <= r.value < |ps| && ps[r.value].containerPort == port
      && forall j' :: j <= j' < r.value ==> ps[j'].containerPort != port)
    ensures r.None? ==> forall j' :: j <= j' < |ps| ==> ps[j'].containerPort != port
    decreases |ps| - j
  {
    if j == |ps| then None
    else if ps[j].containerPort == port then Some(j)
    else FindInPorts(ps, port, j + 1)
  }

  /** The first (container, port) position at or after container `i` that is the wanted port, containers first, then ports. */
  function FindFrom(cs: seq<Container>, port: int, i: nat): (r: Option<(nat, nat)>)
    requires i <= |cs|
    ensures r.Some? ==> (i <= r.value.0 && ExposesAt(cs, port, r.value.0, r.value.1)
      && forall i', j' :: i <= i' && ExposesAt(cs, port, i', j') ==> r.value.0 < i' || (r.value.0 == i' && r.value.1 <= j'))
    ensures r.None? ==> forall i', j' :: i <= i' ==> !ExposesAt(cs, port, i', j')
    decreases |cs| - i
  {
    if i == |cs| then None
    else
      match FindInPorts(cs[i].ports, port, 0)
      case Some(j) => Some((i, j))
      case None => FindFrom(cs, port, i + 1)
  }

  /**
   * `retrieveContainerNameAndPortNameFromPod`: the container and port names
   * of the first port equal to `port`, init containers before containers.
   */
  function RetrieveContainerNameAndPortNameFromPod(pod: Pod, port: int): (r: Result<(string, string)>)
    ensures r.Err? <==> (forall i, j :: !ExposesAt(pod.initContainers, port, i, j)) && (forall i, j :: !ExposesAt(pod.containers, port, i, j))
    ensures r.Err? ==> r.error == "pod " + pod.name + " does not expose port " + FormatInt(port)
    ensures (exists i, j :: ExposesAt(pod.initContainers, port, i, j)) ==>
      exists i, j :: FirstExposedAt(pod.initContainers, port, i, j)
        && r == Ok((pod.initContainers[i].name, pod.initContainers[i].ports[j].name))
    ensures (forall i, j :: !ExposesAt(pod.initContainers, port, i, j)) && (exists i, j :: ExposesAt(pod.containers, port, i, j)) ==>
      exists i, j :: FirstExposedAt(pod.containers, port, i, j)
        && r == Ok((pod.containers[i].name, pod.containers[i].ports[j].name))
  {
    match FindFrom(pod.initContainers, port, 0)
    case Some((i, j)) => Ok((pod.initContainers[i].name, pod.initContainers[i].ports[j].name))
    case None =>
      match FindFrom(pod.containers, port, 0)
      case Some((i, j)) => Ok((pod.containers[i].name, pod.containers[i].ports[j].name))
      case None => Err("pod " + pod.name + " does not expose port " + FormatInt(port))
  }

  /** The pod of the lookup test: init container "container1" with ports 1 and 2, container "container2" with 3 and 4. */
  function TestPod(): Pod
  {
    Pod("", "", "", [Container("container1", [ContainerPort("port1", 1), ContainerPort("port2", 2)])],
        [Container("container2", [ContainerPort("port3", 3), ContainerPort("port4", 4)])], "", false)
  }

  /** Port 2 is found in the init container, port 3 in the container, port 500 nowhere. */
  lemma RetrieveFromTestPod()
    ensures RetrieveContainerNameAndPortNameFromPod(TestPod(), 2) == Ok(("container1", "port2"))
    ensures RetrieveContainerNameAndPortNameFromPod(TestPod(), 3) == Ok(("container2", "port3"))
    ensures RetrieveContainerNameAndPortNameFromPod(TestPod(), 500).Err?
  {
    var pod := TestPod();
    assert FindInPorts(pod.initContainers[0].ports, 2, 0) == Some(1);
    assert FindInPorts(pod.initContainers[0].ports, 3, 0) == None;
    assert FindInPorts(pod.containers[0].ports, 3, 0) == Some(0);
  }

  /** Two init containers exposing the same port: the earlier one's names are returned, never the later one's. */
  lemma FirstInitContainerWins(podName: string, a: string, b: string, pa: string, pb: string, port: int)
    ensures RetrieveContainerNameAndPortNameFromPod(
      Pod(podName, "", "", [Container(a, [ContainerPort(pa, port)]), Container(b, [ContainerPort(pb, port)])], [], "", false),
      port) == Ok((a, pa))
  {
    var pod := Pod(podName, "", "", [Container(a, [ContainerPort(pa, port)]), Container(b, [ContainerPort(pb, port)])], [], "", false);
    assert ExposesAt(pod.initContainers, port, 0, 0);
  }

  /** Watch event types; `pod` is None when the event's object is not a pod. */
  datatype EventType = Added | Modified | Deleted | Error
  datatype WatchEvent = WatchEvent(kind: EventType, pod: Option<Pod>)

  /**
   * The event filter of the watch loop: error, deletion and non-pod events
   * are skipped; a pod is forwarded only when selected, running and not
   * being deleted.
   */
  predicate Forwardable(evt: WatchEvent, selected: Pod -> bool)
  {
    evt.kind != Error && evt.pod.Some? && evt.kind != Deleted
    && selected(evt.pod.value) && evt.pod.value.phase == "Running" && !evt.pod.value.deleting
  }

  /** The container ports of a pod's containers, container by container, in order. */
  function PortsOf(cs: seq<Container>): seq<int>
  {
    if |cs| == 0 then [] else ContainerPorts(cs[0].ports) + PortsOf(cs[1..])
  }

  function ContainerPorts(ps: seq<ContainerPort>): (r: seq<int>)
    ensures |r| == |ps| && forall j :: 0 <= j < |ps| ==> r[j] == ps[j].containerPort
  {
    seq(|ps|, j requires 0 <= j < |ps| => ps[j].containerPort)
  }

  /** Dropping the first of the ports from `j` on leaves those from `j + 1` on. */
  lemma SliceCons(ps: seq<int>, j: int, after: seq<int>)
    requires 0 <= j < |ps|
    ensures (ps[j..] + after)[0] == ps[j] && (ps[j..] + after)[1..] == ps[j + 1..] + after
  {
    assert (ps[j..] + after)[1..] == ps[j..][1..] + after;
  }

  /** Past the last of the ports only `after` remains. */
  lemma SliceEnd(ps: seq<int>, after: seq<int>)
    ensures ps[|ps|..] + after == after
  {
  }

  /** The resource a container port of a pod is forwarded as. */
  function PodResource(pod: Pod, port: int): Resource
  {
    Resource("pod", pod.name, pod.namespace, port)
  }

  /**
   * `getAutomaticPodForwardingEntry`: the version must be an integer and the
   * pod must expose the port; the entry then keeps the local port of the entry
   * already filed under its pod key, or takes a fresh one.
   */
  function AutoEntry(t: Table, pod: Pod, resource: Resource, available: (int, set<int>) -> int): (r: Result<(Entry, Table)>)
    ensures Atoi(pod.resourceVersion).Err? ==> r == Err(Wrap(ErrVersion, Atoi(pod.resourceVersion).error))
    ensures Atoi(pod.resourceVersion).Ok? ==>
      (r.Ok? <==> RetrieveContainerNameAndPortNameFromPod(pod, resource.port).Ok?)
    ensures r.Ok? ==>
      var (e, t') := r.value;
      var names := RetrieveContainerNameAndPortNameFromPod(pod, resource.port).value;
      && e.resource == resource && e.resourceVersion == Atoi(pod.resourceVersion).value && e.podName == pod.name
      && e.containerName == names.0 && e.portName == names.1 && !e.cancel
      && t'.entries == t.entries && t'.terminated == t.terminated && t'.forwarded == t.forwarded
      && (PodKey(e) in t.entries ==> e.localPort == t.entries[PodKey(e)].localPort && t'.ports == t.ports)
      && (PodKey(e) !in t.entries ==> e.localPort == available(resource.port, t.ports) && t'.ports == t.ports + {e.localPort})
  {
    var version := Atoi(pod.resourceVersion);
    if version.Err? then Err(Wrap(ErrVersion, version.error))
    else
      var names := RetrieveContainerNameAndPortNameFromPod(pod, resource.port);
      if names.Err? then Err(Wrap(ErrNames + resource.kind + "/" + resource.name, names.error))
      else
        var e := Entry(version.value, resource, pod.name, names.value.0, names.value.1, 0, false);
        if PodKey(e) in t.entries then Ok((e.(localPort := t.entries[PodKey(e)].localPort), t))
        else
          var (p, t') := Allocate(t, resource.port, available);
          Ok((e.(localPort := p), t'))
  }

  /**
   * `forward`: file the entry (terminating a strictly older generation), then
   * one Forward attempt; the entry stays filed when the attempt fails.
   */
  function ForwardEntry(t: Table, e: Entry, forwardErr: Option<string>): (r: (Table, Option<string>))
    ensures PodKey(e) in r.0.entries && r.0.entries[PodKey(e)] == e
    ensures r.1.Some? <==> forwardErr.Some?
  {
    var t' := Store(t, PodKey(e), e).(forwarded := t.forwarded + [e]);
    (t', if forwardErr.Some? then Some(Wrap("port forwarding failed", forwardErr.value)) else None)
  }

  /** One container port of `portForwardPod`: find or make its entry, then forward it. */
  function PortStep(t: Table, pod: Pod, port: int, available: (int, set<int>) -> int,
                    forwardErr: Entry -> Option<string>): (Table, Option<string>)
  {
    var entry := AutoEntry(t, pod, PodResource(pod, port), available);
    if entry.Err? then (t, Some(Wrap(ErrPodEntry, entry.error)))
    else
      var (t', err) := ForwardEntry(entry.value.1, entry.value.0, forwardErr(entry.value.0));
      (t', if err.Some? then Some(Wrap("failed to forward port", err.value)) else None)
  }

  /** `portForwardPod` over the remaining container ports: the first failure stops it. */
  function ForwardPorts(t: Table, pod: Pod, ports: seq<int>, available: (int, set<int>) -> int,
                        forwardErr: Entry -> Option<string>): (Table, Option<string>)
    decreases |ports|
  {
    if |ports| == 0 then (t, None)
    else
      var (t', err) := PortStep(t, pod, ports[0], available, forwardErr);
      if err.Some? then (t', err) else ForwardPorts(t', pod, ports[1..], available, forwardErr)
  }

  /** One event of the watch loop: a forwardable pod is forwarded; a failure is only logged. */
  function EventStep(t: Table, evt: WatchEvent, selected: Pod -> bool, available: (int, set<int>) -> int,
                     forwardErr: Entry -> Option<string>): Table
  {
    if Forwardable(evt, selected)
    then ForwardPorts(t, evt.pod.value, PortsOf(evt.pod.value.containers), available, forwardErr).0
    else t
  }

  /** The watch loop over a sequence of events. */
  function HandleEvents(t: Table, events: seq<WatchEvent>, selected: Pod -> bool, available: (int, set<int>) -> int,
                        forwardErr: Entry -> Option<string>): Table
    decreases |events|
  {
    if |events| == 0 then t
    else HandleEvents(EventStep(t, events[0], selected, available, forwardErr), events[1..], selected, available, forwardErr)
  }

  /** One container port keeps every entry under its pod key, only grows the table, and files what it forwards. */
  lemma PortStepKeepsTable(t: Table, pod: Pod, port: int, available: (int, set<int>) -> int, forwardErr: Entry -> Option<string>)
    requires KeyedBy(t.entries, PodKey)
    ensures var t' := PortStep(t, pod, port, available, forwardErr).0;
      KeyedBy(t'.entries, PodKey) && Grows(t, t') && Filed(t', |t.forwarded|, PodKey)
  {
    var entry := AutoEntry(t, pod, PodResource(pod, port), available);
    if entry.Ok? {
      StoreKeepsKeys(entry.value.1, entry.value.0, PodKey);
    }
  }

  /** Forwarding a pod's ports keeps every entry under its pod key, only grows the table, and files what it forwards. */
  lemma {:induction false} ForwardPortsKeepsTable(t: Table, pod: Pod, ports: seq<int>, available: (int, set<int>) -> int,
                                                  forwardErr: Entry -> Option<string>)
    requires KeyedBy(t.entries, PodKey)
    ensures var t' := ForwardPorts(t, pod, ports, available, forwardErr).0;
      KeyedBy(t'.entries, PodKey) && Grows(t, t') && Filed(t', |t.forwarded|, PodKey)
    decreases |ports|
  {
    if |ports| == 0 {
      return;
    }
    PortStepKeepsTable(t, pod, ports[0], available, forwardErr);
    var (t1, err) := PortStep(t, pod, ports[0], available, forwardErr);
    if err.None? {
      ForwardPortsKeepsTable(t1, pod, ports[1..], available, forwardErr);
      var t' := ForwardPorts(t1, pod, ports[1..], available, forwardErr).0;
      forall i | |t.forwarded| <= i < |t'.forwarded|
        ensures PodKey(t'.forwarded[i]) in t'.entries
      {
        if i < |t1.forwarded| {
          assert t'.forwarded[i] == t1.forwarded[i];
        }
      }
    }
  }

  /** The whole watch loop keeps every entry under its pod key and only grows the table. */
  lemma {:induction false} HandleEventsKeepsTable(t: Table, events: seq<WatchEvent>, selected: Pod -> bool,
                                                  available: (int, set<int>) -> int, forwardErr: Entry -> Option<string>)
    requires KeyedBy(t.entries, PodKey)
    ensures var t' := HandleEvents(t, events, selected, available, forwardErr);
      KeyedBy(t'.entries, PodKey) && Grows(t, t')
    decreases |events|
  {
    if |events| == 0 {
      return;
    }
    var evt := events[0];
    if Forwardable(evt, selected) {
      ForwardPortsKeepsTable(t, evt.pod.value, PortsOf(evt.pod.value.containers), available, forwardErr);
    }
    HandleEventsKeepsTable(EventStep(t, evt, selected, available, forwardErr), events[1..], selected, available, forwardErr);
  }

  /** A pod whose resource version is not an integer fails at its first port with nothing filed, taken or forwarded. */
  lemma BadVersionChangesNothing(t: Table, pod: Pod, ports: seq<int>, available: (int, set<int>) -> int,
                                 forwardErr: Entry -> Option<string>)
    requires Atoi(pod.resourceVersion).Err? && |ports| > 0
    ensures ForwardPorts(t, pod, ports, available, forwardErr)
         == (t, Some(Wrap(ErrPodEntry, Wrap(ErrVersion, Atoi(pod.resourceVersion).error))))
  {
  }

  /**
   * With an allocator that never returns a taken port, no two pod keys
   * share a local port: a known pod key keeps its port, a new one gets a
   * port nobody holds.
   */
  lemma PortStepKeepsPortsExclusive(t: Table, pod: Pod, port: int, available: (int, set<int>) -> int,
                                    forwardErr: Entry -> Option<string>)
    requires PortsExclusive(t) && FreeAllocator(available)
    ensures PortsExclusive(PortStep(t, pod, port, available, forwardErr).0)
  {
    var entry := AutoEntry(t, pod, PodResource(pod, port), available);
    if entry.Ok? {
      var (e, t1) := entry.value;
      assert PortsExclusive(t1);
      StoreKeepsPortsExclusive(t1, PodKey(e), e);
    }
  }

  /** Forwarding a pod's ports keeps local ports exclusive. */
  lemma {:induction false} ForwardPortsKeepsPortsExclusive(t: Table, pod: Pod, ports: seq<int>, available: (int, set<int>) -> int,
                                                           forwardErr: Entry -> Option<string>)
    requires PortsExclusive(t) && FreeAllocator(available)
    ensures PortsExclusive(ForwardPorts(t, pod, ports, available, forwardErr).0)
    decreases |ports|
  {
    if |ports| > 0 {
      PortStepKeepsPortsExclusive(t, pod, ports[0], available, forwardErr);
      var (t1, err) := PortStep(t, pod, ports[0], available, forwardErr);
      if err.None? {
        ForwardPortsKeepsPortsExclusive(t1, pod, ports[1..], available, forwardErr);
      }
    }
  }

  /** Events the filter rejects change nothing: the loop is the same over the forwardable events alone. */
  lemma {:induction false} SkippedEventsChangeNothing(t: Table, events: seq<WatchEvent>, selected: Pod -> bool,
                                                      available: (int, set<int>) -> int, forwardErr: Entry -> Option<string>)
    ensures HandleEvents(t, events, selected, available, forwardErr)
         == HandleEvents(t, Seqs.Filter(events, e => Forwardable(e, selected)), selected, available, forwardErr)
    decreases |events|
  {
    if |events| == 0 {
      return;
    }
    var p := (e: WatchEvent) => Forwardable(e, selected);
    assert events == [events[0]] + events[1..];
    Seqs.FilterAppend([events[0]], events[1..], p);
    var t' := EventStep(t, events[0], selected, available, forwardErr);
    SkippedEventsChangeNothing(t', events[1..], selected, available, forwardErr);
    var rest := Seqs.Filter(events[1..], p);
    if Forwardable(events[0], selected) {
      assert Seqs.Filter([events[0]], p) == [events[0]];
      assert ([events[0]] + rest)[1..] == rest;
    } else {
      assert Seqs.Filter([events[0]], p) == [];
      assert [] + rest == rest;
    }
  }

  /** The pod of the updated-pod scenario at a given resource version. */
  function ScenarioPod(version: string): Pod
  {
    Pod("podname", "namespace", version, [], [Container("containername", [ContainerPort("portname", 8080)])], "Running", false)
  }

  /** Its entry at a given resource version, on local port 8080. */
  function ScenarioEntry(version: int): Entry
  {
    Entry(version, Resource("pod", "podname", "namespace", 8080), "podname", "containername", "portname", 8080, false)
  }

  /** The scenario pod's port 8080 is container "containername", port "portname". */
  lemma ScenarioLookup(version: string)
    ensures RetrieveContainerNameAndPortNameFromPod(ScenarioPod(version), 8080) == Ok(("containername", "portname"))
  {
    assert FindInPorts(ScenarioPod(version).containers[0].ports, 8080, 0) == Some(0);
  }

  /** Every generation of the scenario entry is filed under the same pod key. */
  lemma ScenarioEntryKey(v: int)
    ensures PodKey(ScenarioEntry(v)) == ScenarioKey()
  {
    Format8080();
  }

  lemma Format8080()
    ensures FormatInt(8080) == "8080"
  {
    FourDigits(8080);
  }

  function ScenarioKey(): string
  {
    "containername-namespace-portname-8080"
  }

  /** The first forward of the scenario pod, at version "1", files it on port 8080. */
  lemma ScenarioFirstForward(available: (int, set<int>) -> int, forwardErr: Entry -> Option<string>)
    requires available(8080, {}) == 8080
    requires forwardErr(ScenarioEntry(1)).None?
    ensures ForwardPorts(Table(map[], {}, [], []), ScenarioPod("1"), [8080], available, forwardErr)
         == (Table(map[ScenarioKey() := ScenarioEntry(1)], {8080}, [], [ScenarioEntry(1)]), None)
  {
    var pod, e, t := ScenarioPod("1"), ScenarioEntry(1), Table(map[], {}, [], []);
    assert Atoi("1") == Ok(1);
    ScenarioLookup("1");
    ScenarioEntryKey(1);
    var r := AutoEntry(t, pod, PodResource(pod, 8080), available);
    assert r.Ok?;
    assert r.value.0.localPort == 8080;
    assert r.value.0 == e;
    assert r.value.1 == t.(ports := {8080});
    var f := ForwardEntry(r.value.1, e, forwardErr(e));
    assert f.1 == None;
    assert f.0.entries == map[ScenarioKey() := e];
    assert f.0.terminated == [];
    assert f.0.forwarded == [e];
    assert f.0.ports == {8080};
    assert PortStep(t, pod, 8080, available, forwardErr) == (Table(map[ScenarioKey() := e], {8080}, [], [e]), None);
    assert [8080][1..] == [];
  }

  /** At version "2" the scenario pod's entry is found under its key and keeps local port 8080. */
  lemma ScenarioSecondEntry(available: (int, set<int>) -> int)
    ensures var t := Table(map[ScenarioKey() := ScenarioEntry(1)], {8080}, [], [ScenarioEntry(1)]);
      AutoEntry(t, ScenarioPod("2"), PodResource(ScenarioPod("2"), 8080), available) == Ok((ScenarioEntry(2), t))
  {
    var pod := ScenarioPod("2");
    var t := Table(map[ScenarioKey() := ScenarioEntry(1)], {8080}, [], [ScenarioEntry(1)]);
    assert Atoi("2") == Ok(2);
    ScenarioLookup("2");
    ScenarioEntryKey(2);
    var r := AutoEntry(t, pod, PodResource(pod, 8080), available);
    assert r.Ok?;
    assert r.value.0.localPort == 8080;
    assert r.value.0 == ScenarioEntry(2);
  }

  /**
   * The updated-pod scenario: the pod forwarded again at version "2" keeps
   * its local port and its single slot, and the version-1 entry is
   * terminated.
   */
  lemma ScenarioUpdatedPod(available: (int, set<int>) -> int, forwardErr: Entry -> Option<string>)
    requires forwardErr(ScenarioEntry(2)).None?
    ensures ForwardPorts(Table(map[ScenarioKey() := ScenarioEntry(1)], {8080}, [], [ScenarioEntry(1)]),
                         ScenarioPod("2"), [8080], available, forwardErr)
         == (Table(map[ScenarioKey() := ScenarioEntry(2)], {8080}, [ScenarioEntry(1)], [ScenarioEntry(1), ScenarioEntry(2)]), None)
  {
    var pod, e1, e2 := ScenarioPod("2"), ScenarioEntry(1), ScenarioEntry(2);
    var t := Table(map[ScenarioKey() := e1], {8080}, [], [e1]);
    ScenarioSecondEntry(available);
    ScenarioEntryKey(2);
    assert Supersedes(t, ScenarioKey(), e2);
    var f := ForwardEntry(t, e2, forwardErr(e2));
    assert f.0.entries == map[ScenarioKey() := e2];
    assert f.0.terminated == [e1];
    assert f.0.forwarded == [e1, e2];
    assert PortStep(t, pod, 8080, available, forwardErr) == (Table(map[ScenarioKey() := e2], {8080}, [e1], [e1, e2]), None);
    assert [8080][1..] == [];
  }

  /**
   * `AutomaticPodForwarder`: the entries by pod key, the shared port set,
   * and the trace of Forward and Terminate actions.
   */
  class AutomaticPodForwarder {
    var forwardedPods: map<string, Entry>
    var terminated: seq<Entry>
    var forwarded: seq<Entry>
    const forwardedPorts: PortSet

    ghost function State(): Table
      reads this, forwardedPorts
    {
      Table(forwardedPods, forwardedPorts.ports, terminated, forwarded)
    }

    /** Every pod entry is filed under its own pod key. */
    ghost predicate Valid()
      reads this
    {
      KeyedBy(forwardedPods, PodKey)
    }

    /** `NewAutomaticPodForwarder`: no entries yet, sharing the given port set. */
    constructor (forwardedPorts: PortSet)
      ensures Valid() && this.forwardedPorts == forwardedPorts
      ensures forwardedPods == map[] && terminated == [] && forwarded == []
    {
      this.forwardedPorts := forwardedPorts;
      forwardedPods := map[];
      terminated := [];
      forwarded := [];
    }

    /** `Stop`: every filed entry is terminated once, in the map's unspecified order. */
    method Stop()
      modifies this`terminated
      ensures |terminated| == |old(terminated)| + |forwardedPods|
      ensures terminated[..|old(terminated)|] == old(terminated)
      ensures forall k :: k in forwardedPods ==> forwardedPods[k] in terminated[|old(terminated)|..]
      ensures forall e :: e in terminated[|old(terminated)|..] ==> e in forwardedPods.Values
    {
      var n := |terminated|;
      var left := forwardedPods.Keys;
      while left != {}
        invariant left <= forwardedPods.Keys
        invariant |terminated| == n + |forwardedPods| - |left|
        invariant terminated[..n] == old(terminated)
        invariant forall k :: k in forwardedPods && k !in left ==> forwardedPods[k] in terminated[n..]
        invariant forall e :: e in terminated[n..] ==> e in forwardedPods.Values
        decreases |left|
      {
        var k :| k in left;
        ghost var before := terminated[n..];
        terminated := terminated + [forwardedPods[k]];
        assert terminated[n..] == before + [forwardedPods[k]];
        left := left - {k};
      }
    }

    /** `getAutomaticPodForwardingEntry`. */
    method GetEntry(pod: Pod, resource: Resource, available: (int, set<int>) -> int) returns (r: Result<Entry>)
      modifies forwardedPorts
      ensures var spec := AutoEntry(old(State()), pod, resource, available);
        && (spec.Err? ==> r == Err(spec.error) && forwardedPorts.ports == old(forwardedPorts.ports))
        && (spec.Ok? ==> r == Ok(spec.value.0) && forwardedPorts.ports == spec.value.1.ports)
    {
      var version := Atoi(pod.resourceVersion);
      if version.Err? {
        return Err(Wrap(ErrVersion, version.error));
      }
      var names := RetrieveContainerNameAndPortNameFromPod(pod, resource.port);
      if names.Err? {
        return Err(Wrap(ErrNames + resource.kind + "/" + resource.name, names.error));
      }
      var e := Entry(version.value, resource, pod.name, names.value.0, names.value.1, 0, false);
      if PodKey(e) in forwardedPods {
        return Ok(e.(localPort := forwardedPods[PodKey(e)].localPort));
      }
      var p := available(resource.port, forwardedPorts.ports);
      forwardedPorts.ports := forwardedPorts.ports + {p};
      return Ok(e.(localPort := p));
    }

    /** `forward`: file the entry, terminating a strictly older generation, then Forward once; its error is wrapped. */
    method Forward(e: Entry, forwardErr: Option<string>) returns (err: Option<string>)
      requires Valid()
      modifies this`forwardedPods, this`terminated, this`forwarded
      ensures Valid()
      ensures (State(), err) == ForwardEntry(old(State()), e, forwardErr)
    {
      var k := PodKey(e);
      if k in forwardedPods && e.resourceVersion > forwardedPods[k].resourceVersion {
        terminated := terminated + [forwardedPods[k]];
      }
      forwardedPods := forwardedPods[k := e];
      forwarded := forwarded + [e];
      if forwardErr.Some? {
        return Some(Wrap("port forwarding failed", forwardErr.value));
      }
      return None;
    }

    /** The body of `portForwardPod`'s inner loop for one container port. */
    method ForwardContainerPort(pod: Pod, port: int, available: (int, set<int>) -> int, forwardErr: Entry -> Option<string>)
      returns (err: Option<string>)
      requires Valid()
      modifies this`forwardedPods, this`terminated, this`forwarded, forwardedPorts
      ensures Valid()
      ensures (State(), err) == PortStep(old(State()), pod, port, available, forwardErr)
    {
      var entry := GetEntry(pod, PodResource(pod, port), available);
      if entry.Err? {
        return Some(Wrap(ErrPodEntry, entry.error));
      }
      var ferr := Forward(entry.value, forwardErr(entry.value));
      if ferr.Some? {
        return Some(Wrap("failed to forward port", ferr.value));
      }
      return None;
    }

    /** The first of the remaining ports, stated against `ForwardPorts` on all of them. */
    method ForwardFirstPort(pod: Pod, ports: seq<int>, available: (int, set<int>) -> int, forwardErr: Entry -> Option<string>)
      returns (err: Option<string>)
      requires |ports| > 0 && Valid()
      modifies this`forwardedPods, this`terminated, this`forwarded, forwardedPorts
      ensures Valid()
      ensures var spec := ForwardPorts(old(State()), pod, ports, available, forwardErr);
        if err.Some? then (State(), err) == spec else ForwardPorts(State(), pod, ports[1..], available, forwardErr) == spec
    {
      err := ForwardContainerPort(pod, ports[0], available, forwardErr);
    }

    /** `portForwardPod`'s inner loop: the ports of one container, then whatever `after` holds. */
    method ForwardContainer(pod: Pod, c: Container, after: seq<int>, available: (int, set<int>) -> int, forwardErr: Entry -> Option<string>)
      returns (err: Option<string>)
      requires Valid()
      modifies this`forwardedPods, this`terminated, this`forwarded, forwardedPorts
      ensures Valid()
      ensures var spec := ForwardPorts(old(State()), pod, ContainerPorts(c.ports) + after, available, forwardErr);
        if err.Some? then (State(), err) == spec else ForwardPorts(State(), pod, after, available, forwardErr) == spec
    {
      var j := 0;
      while j < |c.ports|
        invariant 0 <= j <= |c.ports| && Valid()
        invariant ForwardPorts(State(), pod, ContainerPorts(c.ports)[j..] + after, available, forwardErr)
               == ForwardPorts(old(State()), pod, ContainerPorts(c.ports) + after, available, forwardErr)
      {
        var rest := ContainerPorts(c.ports)[j..] + after;
        SliceCons(ContainerPorts(c.ports), j, after);
        err := ForwardFirstPort(pod, rest, available, forwardErr);
        if err.Some? {
          return;
        }
        j := j + 1;
      }
      SliceEnd(ContainerPorts(c.ports), after);
      return None;
    }

    /** `portForwardPod`: every port of every container in turn; the first failure stops it. */
    method PortForwardPod(pod: Pod, available: (int, set<int>) -> int, forwardErr: Entry -> Option<string>) returns (err: Option<string>)
      requires Valid()
      modifies this`forwardedPods, this`terminated, this`forwarded, forwardedPorts
      ensures Valid()
      ensures (State(), err) == ForwardPorts(old(State()), pod, PortsOf(pod.containers), available, forwardErr)
    {
      var i := 0;
      while i < |pod.containers|
        invariant 0 <= i <= |pod.containers| && Valid()
        invariant ForwardPorts(State(), pod, PortsOf(pod.containers[i..]), available, forwardErr)
               == ForwardPorts(old(State()), pod, PortsOf(pod.containers), available, forwardErr)
      {
        var c := pod.containers[i];
        assert PortsOf(pod.containers[i..]) == ContainerPorts(c.ports) + PortsOf(pod.containers[i + 1..]) by {
          assert pod.containers[i..][1..] == pod.containers[i + 1..];
        }
        err := ForwardContainer(pod, c, PortsOf(pod.containers[i + 1..]), available, forwardErr);
        if err.Some? {
          return;
        }
        i := i + 1;
      }
      assert PortsOf(pod.containers[i..]) == [];
      return None;
    }

    /**
     * `Start`: a failing pod watcher is reported and nothing is forwarded;
     * otherwise every forwardable event's pod is forwarded in turn and nil is
     * returned (failures are only logged).
     */
    method Start(watcherErr: Option<string>, events: seq<WatchEvent>, selected: Pod -> bool,
                 available: (int, set<int>) -> int, forwardErr: Entry -> Option<string>) returns (err: Option<string>)
      requires Valid()
      modifies this`forwardedPods, this`terminated, this`forwarded, forwardedPorts
      ensures Valid()
      ensures watcherErr.Some? ==> err == Some(Wrap("initializing pod watcher", watcherErr.value)) && State() == old(State())
      ensures watcherErr.None? ==> err.None? && State() == HandleEvents(old(State()), events, selected, available, forwardErr)
    {
      if watcherErr.Some? {
        return Some(Wrap("initializing pod watcher", watcherErr.value));
      }
      var i := 0;
      while i < |events|
        invariant 0 <= i <= |events| && Valid()
        invariant HandleEvents(State(), events[i..], selected, available, forwardErr)
               == HandleEvents(old(State()), events, selected, available, forwardErr)
      {
        assert events[i..][1..] == events[i + 1..];
        if Forwardable(events[i], selected) {
          var _ := PortForwardPod(events[i].pod.value, available, forwardErr);
        }
        i := i + 1;
      }
      return None;
    }
  }
}
