/**
 * The resource port forwarder of portforward/port_forward.go: pod ports
 * filed under the resource key. The local port is taken (or reused) before
 * the pod's details are checked, and a forward keeps retrying Forward until
 * it connects or the poll times out. Forward, Terminate, the port allocator
 * and the pod selector are collaborators.
 */
module ResourceForwarder {
  import opened Errors
  import opened Strs
  import opened PortForwardEntry
  import P = PodForwarder

  /**
   * `getCurrentEntry`: a fresh entry for the resource whose local port is
   * that of the entry already filed under the same key, or a newly taken one.
   */
  function CurrentEntry(t: Table, resource: Resource, available: (int, set<int>) -> int): (r: (Entry, Table))
    ensures r.0 == NewEntry(resource).(localPort := r.0.localPort)
    ensures Key(r.0) in t.entries ==> r.0.localPort == t.entries[Key(r.0)].localPort && r.1 == t
    ensures Key(r.0) !in t.entries ==> (r.0.localPort, r.1) == Allocate(t, resource.port, available)
  {
    var e := NewEntry(resource);
    if Key(e) in t.entries then (e.(localPort := t.entries[Key(e)].localPort), t)
    else
      var (p, t') := Allocate(t, resource.port, available);
      (e.(localPort := p), t')
  }

  /**
   * `updateEntryWithPodDetails`, on the entry as updated in place and the
   * error: a non-integer version changes nothing; otherwise the version and
   * pod name are set, and the container and port names when the pod exposes
   * the port.
   */
  function UpdateEntryWithPodDetails(pod: P.Pod, resource: Resource, e: Entry): (r: (Entry, Option<string>))
    ensures Atoi(pod.resourceVersion).Err? ==> r == (e, Some(Wrap(ErrVersion, Atoi(pod.resourceVersion).error)))
    ensures Atoi(pod.resourceVersion).Ok? ==>
      var names := P.RetrieveContainerNameAndPortNameFromPod(pod, resource.port);
      && r.0.resource == e.resource && r.0.localPort == e.localPort && r.0.cancel == e.cancel
      && r.0.resourceVersion == Atoi(pod.resourceVersion).value && r.0.podName == pod.name
      && (r.1.None? <==> names.Ok?)
      && (names.Ok? ==> r.0.containerName == names.value.0 && r.0.portName == names.value.1)
      && (names.Err? ==> r.0.containerName == e.containerName && r.0.portName == e.portName
                         && r.1 == Some(Wrap(ErrNames + resource.kind + "/" + resource.name, names.error)))
  {
    var version := Atoi(pod.resourceVersion);
    if version.Err? then (e, Some(Wrap(ErrVersion, version.error)))
    else
      var e1 := e.(resourceVersion := version.value, podName := pod.name);
      var names := P.RetrieveContainerNameAndPortNameFromPod(pod, resource.port);
      if names.Err? then (e1, Some(Wrap(ErrNames + resource.kind + "/" + resource.name, names.error)))
      else (e1.(containerName := names.value.0, portName := names.value.1), None)
  }

  /**
   * `forward`: file the entry under its key (terminating a strictly older
   * generation), then poll Forward; `connected` says whether some attempt
   * succeeded before the poll timed out. The entry stays filed on a timeout.
   */
  function ForwardEntry(t: Table, e: Entry, connected: bool): (r: (Table, Option<string>))
    ensures Key(e) in r.0.entries && r.0.entries[Key(e)] == e
    ensures r.1.Some? <==> !connected
    ensures !connected ==> r.1 == Some(ErrWaitTimeout)
  {
    var t' := Store(t, Key(e), e).(forwarded := t.forwarded + [e]);
    (t', if connected then None else Some(ErrWaitTimeout))
  }

  /** One container port of `portForwardPod`: current entry, pod details, forward. */
  function PortStep(t: Table, pod: P.Pod, port: int, available: (int, set<int>) -> int,
                    connected: Entry -> bool): (Table, Option<string>)
  {
    var (e0, t1) := CurrentEntry(t, P.PodResource(pod, port), available);
    var (e1, err) := UpdateEntryWithPodDetails(pod, e0.resource, e0);
    if err.Some? then (t1, Some(Wrap(ErrUpdate, err.value)))
    else
      var (t2, ferr) := ForwardEntry(t1, e1, connected(e1));
      (t2, if ferr.Some? then Some(Wrap("failed to forward port", ferr.value)) else None)
  }

  /** `portForwardPod` over the remaining container ports: the first failure stops it. */
  function ForwardPorts(t: Table, pod: P.Pod, ports: seq<int>, available: (int, set<int>) -> int,
                        connected: Entry -> bool): (Table, Option<string>)
    decreases |ports|
  {
    if |ports| == 0 then (t, None)
    else
      var (t', err) := PortStep(t, pod, ports[0], available, connected);
      if err.Some? then (t', err) else ForwardPorts(t', pod, ports[1..], available, connected)
  }

  /** One event of the watch loop: a forwardable pod is forwarded; a failure is only logged. */
  function EventStep(t: Table, evt: P.WatchEvent, selected: P.Pod -> bool, available: (int, set<int>) -> int,
                     connected: Entry -> bool): Table
  {
    if P.Forwardable(evt, selected)
    then ForwardPorts(t, evt.pod.value, P.PortsOf(evt.pod.value.containers), available, connected).0
    else t
  }

  /** The watch loop over a sequence of events. */
  function HandleEvents(t: Table, events: seq<P.WatchEvent>, selected: P.Pod -> bool, available: (int, set<int>) -> int,
                        connected: Entry -> bool): Table
    decreases |events|
  {
    if |events| == 0 then t
    else HandleEvents(EventStep(t, events[0], selected, available, connected), events[1..], selected, available, connected)
  }

  /** One container port keeps every entry under its key, only grows the table, and files what it forwards. */
  lemma PortStepKeepsTable(t: Table, pod: P.Pod, port: int, available: (int, set<int>) -> int, connected: Entry -> bool)
    requires KeyedBy(t.entries, Key)
    ensures var t' := PortStep(t, pod, port, available, connected).0;
      KeyedBy(t'.entries, Key) && Grows(t, t') && Filed(t', |t.forwarded|, Key)
  {
    var (e0, t1) := CurrentEntry(t, P.PodResource(pod, port), available);
    var (e1, err) := UpdateEntryWithPodDetails(pod, e0.resource, e0);
    assert t1.entries == t.entries && t1.forwarded == t.forwarded && t1.terminated == t.terminated;
    if err.None? {
      StoreKeepsKeys(t1, e1, Key);
    }
  }

  /** Forwarding a pod's ports keeps every entry under its key, only grows the table, and files what it forwards. */
  lemma {:induction false} ForwardPortsKeepsTable(t: Table, pod: P.Pod, ports: seq<int>, available: (int, set<int>) -> int,
                                                  connected: Entry -> bool)
    requires KeyedBy(t.entries, Key)
    ensures var t' := ForwardPorts(t, pod, ports, available, connected).0;
      KeyedBy(t'.entries, Key) && Grows(t, t') && Filed(t', |t.forwarded|, Key)
    decreases |ports|
  {
    if |ports| == 0 {
      return;
    }
    PortStepKeepsTable(t, pod, ports[0], available, connected);
    var (t1, err) := PortStep(t, pod, ports[0], available, connected);
    if err.None? {
      ForwardPortsKeepsTable(t1, pod, ports[1..], available, connected);
      var t' := ForwardPorts(t1, pod, ports[1..], available, connected).0;
      forall i | |t.forwarded| <= i < |t'.forwarded|
        ensures Key(t'.forwarded[i]) in t'.entries
      {
        if i < |t1.forwarded| {
          assert t'.forwarded[i] == t1.forwarded[i];
        }
      }
    }
  }

  /** The whole watch loop keeps every entry under its key and only grows the table. */
  lemma {:induction false} HandleEventsKeepsTable(t: Table, events: seq<P.WatchEvent>, selected: P.Pod -> bool,
                                                  available: (int, set<int>) -> int, connected: Entry -> bool)
    requires KeyedBy(t.entries, Key)
    ensures var t' := HandleEvents(t, events, selected, available, connected);
      KeyedBy(t'.entries, Key) && Grows(t, t')
    decreases |events|
  {
    if |events| == 0 {
      return;
    }
    var evt := events[0];
    if P.Forwardable(evt, selected) {
      ForwardPortsKeepsTable(t, evt.pod.value, P.PortsOf(evt.pod.value.containers), available, connected);
    }
    HandleEventsKeepsTable(EventStep(t, evt, selected, available, connected), events[1..], selected, available, connected);
  }

  /**
   * Unlike the automatic pod forwarder, a pod whose resource version is not
   * an integer still takes a local port for a resource key not seen before:
   * the port is recorded as taken while nothing is filed or forwarded.
   */
  lemma BadVersionStillTakesPort(t: Table, pod: P.Pod, port: int, available: (int, set<int>) -> int, connected: Entry -> bool)
    requires Atoi(pod.resourceVersion).Err?
    requires Key(NewEntry(P.PodResource(pod, port))) !in t.entries
    ensures var (t', err) := PortStep(t, pod, port, available, connected);
      && t' == t.(ports := t.ports + {available(port, t.ports)})
      && err == Some(Wrap(ErrUpdate,
                          Wrap(ErrVersion, Atoi(pod.resourceVersion).error)))
  {
    var (e0, t1) := CurrentEntry(t, P.PodResource(pod, port), available);
    assert Key(e0) == Key(NewEntry(P.PodResource(pod, port)));
  }

  /** With an allocator that never returns a taken port, no two resource keys share a local port. */
  lemma PortStepKeepsPortsExclusive(t: Table, pod: P.Pod, port: int, available: (int, set<int>) -> int, connected: Entry -> bool)
    requires PortsExclusive(t) && FreeAllocator(available)
    ensures PortsExclusive(PortStep(t, pod, port, available, connected).0)
  {
    var (e0, t1) := CurrentEntry(t, P.PodResource(pod, port), available);
    var (e1, err) := UpdateEntryWithPodDetails(pod, e0.resource, e0);
    assert PortsExclusive(t1);
    if err.None? {
      assert Key(e1) == Key(e0);
      StoreKeepsPortsExclusive(t1, Key(e1), e1);
    }
  }

  /** Forwarding a pod's ports keeps local ports exclusive. */
  lemma {:induction false} ForwardPortsKeepsPortsExclusive(t: Table, pod: P.Pod, ports: seq<int>, available: (int, set<int>) -> int,
                                                           connected: Entry -> bool)
    requires PortsExclusive(t) && FreeAllocator(available)
    ensures PortsExclusive(ForwardPorts(t, pod, ports, available, connected).0)
    decreases |ports|
  {
    if |ports| > 0 {
      PortStepKeepsPortsExclusive(t, pod, ports[0], available, connected);
      var (t1, err) := PortStep(t, pod, ports[0], available, connected);
      if err.None? {
        ForwardPortsKeepsPortsExclusive(t1, pod, ports[1..], available, connected);
      }
    }
  }

  /**
   * `PortForwarder`: the entries by resource key, the shared port set, and
   * the trace of Forward and Terminate actions.
   */
  class PortForwarder {
    var forwardedResources: map<string, Entry>
    var terminated: seq<Entry>
    var forwarded: seq<Entry>
    const forwardedPorts: PortSet

    ghost function State(): Table
      reads this, forwardedPorts
    {
      Table(forwardedResources, forwardedPorts.ports, terminated, forwarded)
    }

    /** `NewPortForwarder`: no entries yet, with the given port set. */
    constructor (forwardedPorts: PortSet)
      ensures this.forwardedPorts == forwardedPorts
      ensures forwardedResources == map[] && terminated == [] && forwarded == []
    {
      this.forwardedPorts := forwardedPorts;
      forwardedResources := map[];
      terminated := [];
      forwarded := [];
    }

    /** `Stop`: every filed entry is terminated once, in the map's unspecified order. */
    method Stop()
      modifies this`terminated
      ensures |terminated| == |old(terminated)| + |forwardedResources|
      ensures terminated[..|old(terminated)|] == old(terminated)
      ensures forall k :: k in forwardedResources ==> forwardedResources[k] in terminated[|old(terminated)|..]
      ensures forall e :: e in terminated[|old(terminated)|..] ==> e in forwardedResources.Values
    {
      var n := |terminated|;
      var left := forwardedResources.Keys;
      while left != {}
        invariant left <= forwardedResources.Keys
        invariant |terminated| == n + |forwardedResources| - |left|
        invariant terminated[..n] == old(terminated)
        invariant forall k :: k in forwardedResources && k !in left ==> forwardedResources[k] in terminated[n..]
        invariant forall e :: e in terminated[n..] ==> e in forwardedResources.Values
        decreases |left|
      {
        var k :| k in left;
        ghost var before := terminated[n..];
        terminated := terminated + [forwardedResources[k]];
        assert terminated[n..] == before + [forwardedResources[k]];
        left := left - {k};
      }
    }

    /** `getCurrentEntry`. */
    method GetCurrentEntry(resource: Resource, available: (int, set<int>) -> int) returns (e: Entry)
      modifies forwardedPorts
      ensures var spec := CurrentEntry(old(State()), resource, available);
        e == spec.0 && forwardedPorts.ports == spec.1.ports
    {
      e := NewEntry(resource);
      if Key(e) in forwardedResources {
        return e.(localPort := forwardedResources[Key(e)].localPort);
      }
      var p := available(resource.port, forwardedPorts.ports);
      forwardedPorts.ports := forwardedPorts.ports + {p};
      return e.(localPort := p);
    }

    /** `forward`: file the entry, terminating a strictly older generation, then poll Forward. */
    method Forward(e: Entry, connected: bool) returns (err: Option<string>)
      modifies this`forwardedResources, this`terminated, this`forwarded
      ensures (State(), err) == ForwardEntry(old(State()), e, connected)
    {
      var k := Key(e);
      if k in forwardedResources && e.resourceVersion > forwardedResources[k].resourceVersion {
        terminated := terminated + [forwardedResources[k]];
      }
      forwardedResources := forwardedResources[k := e];
      forwarded := forwarded + [e];
      if !connected {
        return Some(ErrWaitTimeout);
      }
      return None;
    }

    /** The body of `portForwardPod`'s inner loop for one container port. */
    method ForwardContainerPort(pod: P.Pod, port: int, available: (int, set<int>) -> int, connected: Entry -> bool)
      returns (err: Option<string>)
      modifies this`forwardedResources, this`terminated, this`forwarded, forwardedPorts
      ensures (State(), err) == PortStep(old(State()), pod, port, available, connected)
    {
      var entry := GetCurrentEntry(P.PodResource(pod, port), available);
      var (updated, uerr) := UpdateEntryWithPodDetails(pod, entry.resource, entry);
      if uerr.Some? {
        return Some(Wrap(ErrUpdate, uerr.value));
      }
      var ferr := Forward(updated, connected(updated));
      if ferr.Some? {
        return Some(Wrap("failed to forward port", ferr.value));
      }
      return None;
    }

    /** The first of the remaining ports, stated against `ForwardPorts` on all of them. */
    method ForwardFirstPort(pod: P.Pod, ports: seq<int>, available: (int, set<int>) -> int, connected: Entry -> bool)
      returns (err: Option<string>)
      requires |ports| > 0
      modifies this`forwardedResources, this`terminated, this`forwarded, forwardedPorts
      ensures var spec := ForwardPorts(old(State()), pod, ports, available, connected);
        if err.Some? then (State(), err) == spec else ForwardPorts(State(), pod, ports[1..], available, connected) == spec
    {
      err := ForwardContainerPort(pod, ports[0], available, connected);
    }

    /** `portForwardPod`'s inner loop: the ports of one container, then whatever `after` holds. */
    method ForwardContainer(pod: P.Pod, c: P.Container, after: seq<int>, available: (int, set<int>) -> int, connected: Entry -> bool)
      returns (err: Option<string>)
      modifies this`forwardedResources, this`terminated, this`forwarded, forwardedPorts
      ensures var spec := ForwardPorts(old(State()), pod, P.ContainerPorts(c.ports) + after, available, connected);
        if err.Some? then (State(), err) == spec else ForwardPorts(State(), pod, after, available, connected) == spec
    {
      var j := 0;
      while j < |c.ports|
        invariant 0 <= j <= |c.ports|
        invariant ForwardPorts(State(), pod, P.ContainerPorts(c.ports)[j..] + after, available, connected)
               == ForwardPorts(old(State()), pod, P.ContainerPorts(c.ports) + after, available, connected)
      {
        var rest := P.ContainerPorts(c.ports)[j..] + after;
        P.SliceCons(P.ContainerPorts(c.ports), j, after);
        err := ForwardFirstPort(pod, rest, available, connected);
        if err.Some? {
          return;
        }
        j := j + 1;
      }
      P.SliceEnd(P.ContainerPorts(c.ports), after);
      return None;
    }

    /** `portForwardPod`: every port of every container in turn; the first failure stops it. */
    method PortForwardPod(pod: P.Pod, available: (int, set<int>) -> int, connected: Entry -> bool) returns (err: Option<string>)
      modifies this`forwardedResources, this`terminated, this`forwarded, forwardedPorts
      ensures (State(), err) == ForwardPorts(old(State()), pod, P.PortsOf(pod.containers), available, connected)
    {
      var i := 0;
      while i < |pod.containers|
        invariant 0 <= i <= |pod.containers|
        invariant ForwardPorts(State(), pod, P.PortsOf(pod.containers[i..]), available, connected)
               == ForwardPorts(old(State()), pod, P.PortsOf(pod.containers), available, connected)
      {
        var c := pod.containers[i];
        assert P.PortsOf(pod.containers[i..]) == P.ContainerPorts(c.ports) + P.PortsOf(pod.containers[i + 1..]) by {
          assert pod.containers[i..][1..] == pod.containers[i + 1..];
        }
        err := ForwardContainer(pod, c, P.PortsOf(pod.containers[i + 1..]), available, connected);
        if err.Some? {
          return;
        }
        i := i + 1;
      }
      assert P.PortsOf(pod.containers[i..]) == [];
      return None;
    }

    /**
     * `Start`: a failing pod watcher is reported and nothing is forwarded;
     * otherwise every forwardable event's pod is forwarded in turn and nil is
     * returned (failures are only logged).
     */
    method Start(watcherErr: Option<string>, events: seq<P.WatchEvent>, selected: P.Pod -> bool,
                 available: (int, set<int>) -> int, connected: Entry -> bool) returns (err: Option<string>)
      modifies this`forwardedResources, this`terminated, this`forwarded, forwardedPorts
      ensures watcherErr.Some? ==> err == Some(Wrap("initializing pod watcher", watcherErr.value)) && State() == old(State())
      ensures watcherErr.None? ==> err.None? && State() == HandleEvents(old(State()), events, selected, available, connected)
    {
      if watcherErr.Some? {
        return Some(Wrap("initializing pod watcher", watcherErr.value));
      }
      var i := 0;
      while i < |events|
        invariant 0 <= i <= |events|
        invariant HandleEvents(State(), events[i..], selected, available, connected)
               == HandleEvents(old(State()), events, selected, available, connected)
      {
        assert events[i..][1..] == events[i + 1..];
        if P.Forwardable(events[i], selected) {
          var _ := PortForwardPod(events[i].pod.value, available, connected);
        }
        i := i + 1;
      }
      return None;
    }
  }
}
