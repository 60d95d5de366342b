/**
 * The older pod port forwarder of kubernetes/port_forward.go. Entries are
 * filed under the resource key and handed to the kubectl forwarder, whose
 * Forward installs a cancel handle on the filed entry and whose Terminate
 * cancels only an entry that has one. The cancel handle is the entry's
 * `cancel` flag; the `terminated` trace records the entries actually
 * cancelled.
 */
module KubePortForward {
  import opened Errors
  import opened Strs
  import opened PortForwardEntry
  import P = PodForwarder

  /** `String`: "type/name/namespace:port", unlike the dashed key. */
  function Display(e: Entry): (r: string)
    ensures r != Key(e)
  {
    var s := e.resource.kind + "/" + e.resource.name + "/" + e.resource.namespace + ":" + FormatInt(e.resource.port);
    assert s[|e.resource.kind|] == '/';
    assert Key(e)[|e.resource.kind|] == '-';
    s
  }

  /** `kubectlForwarder.Terminate`: an entry with a cancel handle is cancelled; one without is left alone. */
  function Terminate(t: Table, e: Entry): (r: Table)
    ensures e.cancel ==> r == t.(terminated := t.terminated + [e])
    ensures !e.cancel ==> r == t
  {
    if e.cancel then t.(terminated := t.terminated + [e]) else t
  }

  /** `getCurrentEntry`: an entry at the given version that keeps the local port filed under its key, or takes a new one. */
  function CurrentEntry(t: Table, resource: Resource, version: int, available: (int, set<int>) -> int): (r: (Entry, Table))
    ensures r.0 == NewEntry(resource).(resourceVersion := version, localPort := r.0.localPort)
    ensures Key(r.0) in t.entries ==> r.0.localPort == t.entries[Key(r.0)].localPort && r.1 == t
    ensures Key(r.0) !in t.entries ==> (r.0.localPort, r.1) == Allocate(t, resource.port, available)
  {
    var e := NewEntry(resource).(resourceVersion := version);
    if Key(e) in t.entries then (e.(localPort := t.entries[Key(e)].localPort), t)
    else
      var (p, t') := Allocate(t, resource.port, available);
      (e.(localPort := p), t')
  }

  /**
   * `updateEntryWithPodDetails`, on the entry as updated in place and the
   * error: the pod name is set first, then the container and port names when
   * the pod exposes the port. The lookup this package calls is defined in no
   * file of this revision; it is taken to be the `portforward` one.
   */
  function UpdateEntryWithPodDetails(pod: P.Pod, resource: Resource, e: Entry): (r: (Entry, Option<string>))
    ensures var names := P.RetrieveContainerNameAndPortNameFromPod(pod, resource.port);
      && r.0.podName == pod.name
      && r.0.resource == e.resource && r.0.resourceVersion == e.resourceVersion && r.0.localPort == e.localPort && r.0.cancel == e.cancel
      && (r.1.None? <==> names.Ok?)
      && (names.Ok? ==> r.0.containerName == names.value.0 && r.0.portName == names.value.1)
      && (names.Err? ==> r.0.containerName == e.containerName && r.0.portName == e.portName
                         && r.1 == Some(Wrap(ErrNames + resource.kind + "/" + resource.name, names.error)))
  {
    var e1 := e.(podName := pod.name);
    var names := P.RetrieveContainerNameAndPortNameFromPod(pod, resource.port);
    if names.Err? then (e1, Some(Wrap(ErrNames + resource.kind + "/" + resource.name, names.error)))
    else (e1.(containerName := names.value.0, portName := names.value.1), None)
  }

  /**
   * `forward`: a strictly older generation filed under the key is
   * terminated; the entry is filed, and the first Forward of the poll
   * installs its cancel handle; `connected` says whether some attempt
   * succeeded within the minute.
   */
  function ForwardEntry(t: Table, e: Entry, connected: bool): (r: (Table, Option<string>))
    ensures Key(e) in r.0.entries && r.0.entries[Key(e)] == e.(cancel := true)
    ensures r.1.Some? <==> !connected
    ensures !connected ==> r.1 == Some(ErrWaitTimeout)
  {
    var k := Key(e);
    var t1 := if k in t.entries && e.resourceVersion > t.entries[k].resourceVersion then Terminate(t, t.entries[k]) else t;
    var t2 := t1.(entries := t1.entries[k := e.(cancel := true)], forwarded := t1.forwarded + [e]);
    (t2, if connected then None else Some(ErrWaitTimeout))
  }

  /** One container port of `portForwardPod`: parse the version, current entry, pod details, forward. */
  function PortStep(t: Table, pod: P.Pod, port: int, available: (int, set<int>) -> int,
                    connected: Entry -> bool): (Table, Option<string>)
  {
    var version := Atoi(pod.resourceVersion);
    if version.Err? then (t, Some(Wrap(ErrVersion, version.error)))
    else
      var (e0, t1) := CurrentEntry(t, P.PodResource(pod, port), version.value, available);
      var (e1, err) := UpdateEntryWithPodDetails(pod, e0.resource, e0);
      if err.Some? then (t1, Some(Wrap(ErrUpdate, err.value)))
      else
        var (t2, ferr) := ForwardEntry(t1, e1, connected(e1));
        (t2, if ferr.Some? then Some(Wrap("failed to forward port", ferr.value)) else None)
  }

  /** `portForwardPod` over the remaining container ports: the first failure stops it. */
  function ForwardPorts(t: Table, pod: P.Pod, ports: seq<int>, available: (int, set<int>) -> int,
                        connected: Entry -> bool): (Table, Option<string>)
    decreases |ports|
  {
    if |ports| == 0 then (t, None)
    else
      var (t', err) := PortStep(t, pod, ports[0], available, connected);
      if err.Some? then (t', err) else ForwardPorts(t', pod, ports[1..], available, connected)
  }

  /** One event of the watch loop: a forwardable pod is forwarded; a failure is only logged. */
  function EventStep(t: Table, evt: P.WatchEvent, selected: P.Pod -> bool, available: (int, set<int>) -> int,
                     connected: Entry -> bool): Table
  {
    if P.Forwardable(evt, selected)
    then ForwardPorts(t, evt.pod.value, P.PortsOf(evt.pod.value.containers), available, connected).0
    else t
  }

  /** The watch loop over a sequence of events. */
  function HandleEvents(t: Table, events: seq<P.WatchEvent>, selected: P.Pod -> bool, available: (int, set<int>) -> int,
                        connected: Entry -> bool): Table
    decreases |events|
  {
    if |events| == 0 then t
    else HandleEvents(EventStep(t, events[0], selected, available, connected), events[1..], selected, available, connected)
  }

  /** Every filed entry is filed under its key and carries a cancel handle. */
  ghost predicate Valid(t: Table)
  {
    KeyedBy(t.entries, Key) && forall k :: k in t.entries ==> t.entries[k].cancel
  }

  /** A forward keeps the table valid and only grows it. */
  lemma ForwardEntryKeepsValid(t: Table, e: Entry, connected: bool)
    requires Valid(t)
    ensures var t' := ForwardEntry(t, e, connected).0;
      Valid(t') && Grows(t, t')
  {
    assert Key(e.(cancel := true)) == Key(e);
  }

  /** One container port keeps the table valid and only grows it. */
  lemma PortStepKeepsValid(t: Table, pod: P.Pod, port: int, available: (int, set<int>) -> int, connected: Entry -> bool)
    requires Valid(t)
    ensures var t' := PortStep(t, pod, port, available, connected).0;
      Valid(t') && Grows(t, t')
  {
    var version := Atoi(pod.resourceVersion);
    if version.Ok? {
      var (e0, t1) := CurrentEntry(t, P.PodResource(pod, port), version.value, available);
      var (e1, err) := UpdateEntryWithPodDetails(pod, e0.resource, e0);
      assert Valid(t1) && Grows(t, t1);
      if err.None? {
        ForwardEntryKeepsValid(t1, e1, connected(e1));
      }
    }
  }

  /** Forwarding a pod's ports keeps the table valid and only grows it. */
  lemma {:induction false} ForwardPortsKeepsValid(t: Table, pod: P.Pod, ports: seq<int>, available: (int, set<int>) -> int,
                                                  connected: Entry -> bool)
    requires Valid(t)
    ensures var t' := ForwardPorts(t, pod, ports, available, connected).0;
      Valid(t') && Grows(t, t')
    decreases |ports|
  {
    if |ports| > 0 {
      PortStepKeepsValid(t, pod, ports[0], available, connected);
      var (t1, err) := PortStep(t, pod, ports[0], available, connected);
      if err.None? {
        ForwardPortsKeepsValid(t1, pod, ports[1..], available, connected);
      }
    }
  }

  /** The whole watch loop keeps the table valid and only grows it. */
  lemma {:induction false} HandleEventsKeepsValid(t: Table, events: seq<P.WatchEvent>, selected: P.Pod -> bool,
                                                  available: (int, set<int>) -> int, connected: Entry -> bool)
    requires Valid(t)
    ensures var t' := HandleEvents(t, events, selected, available, connected);
      Valid(t') && Grows(t, t')
    decreases |events|
  {
    if |events| > 0 {
      var evt := events[0];
      if P.Forwardable(evt, selected) {
        ForwardPortsKeepsValid(t, evt.pod.value, P.PortsOf(evt.pod.value.containers), available, connected);
      }
      HandleEventsKeepsValid(EventStep(t, evt, selected, available, connected), events[1..], selected, available, connected);
    }
  }

  /**
   * A superseded generation is always really cancelled: in a valid table the
   * entry replaced by a strictly newer version has a cancel handle, so the
   * Terminate it gets is never the no-op.
   */
  lemma SupersededIsCancelled(t: Table, e: Entry, connected: bool)
    requires Valid(t) && Key(e) in t.entries && e.resourceVersion > t.entries[Key(e)].resourceVersion
    ensures ForwardEntry(t, e, connected).0.terminated == t.terminated + [t.entries[Key(e)]]
  {
  }

  /** A pod whose resource version is not an integer fails at its first port before any port is taken. */
  lemma BadVersionChangesNothing(t: Table, pod: P.Pod, ports: seq<int>, available: (int, set<int>) -> int,
                                 connected: Entry -> bool)
    requires Atoi(pod.resourceVersion).Err? && |ports| > 0
    ensures ForwardPorts(t, pod, ports, available, connected)
         == (t, Some(Wrap(ErrVersion, Atoi(pod.resourceVersion).error)))
  {
  }

  /**
   * The older `PortForwarder`: the entries by key, its own port set, and the
   * trace of Forward calls and of cancellations.
   */
  class PortForwarder {
    var forwardedPods: map<string, Entry>
    var terminated: seq<Entry>
    var forwarded: seq<Entry>
    const forwardedPorts: PortSet

    ghost function State(): Table
      reads this, forwardedPorts
    {
      Table(forwardedPods, forwardedPorts.ports, terminated, forwarded)
    }

    /** `NewPortForwarder`: no entries yet and a port set of its own. */
    constructor ()
      ensures Valid(State()) && fresh(forwardedPorts)
      ensures forwardedPods == map[] && forwardedPorts.ports == {} && terminated == [] && forwarded == []
    {
      forwardedPorts := new PortSet();
      forwardedPods := map[];
      terminated := [];
      forwarded := [];
    }

    /** `kubectlForwarder.Terminate`. */
    method TerminateEntry(e: Entry)
      modifies this`terminated
      ensures e.cancel ==> terminated == old(terminated) + [e]
      ensures !e.cancel ==> terminated == old(terminated)
    {
      if e.cancel {
        terminated := terminated + [e];
      }
    }

    /**
     * `Stop`: every filed entry is handed to Terminate, so exactly those
     * with a cancel handle are cancelled (in a valid table, all of them).
     */
    method Stop()
      modifies this`terminated
      ensures |old(terminated)| <= |terminated| <= |old(terminated)| + |forwardedPods|
      ensures terminated[..|old(terminated)|] == old(terminated)
      ensures forall k :: k in forwardedPods && forwardedPods[k].cancel ==> forwardedPods[k] in terminated[|old(terminated)|..]
      ensures forall e :: e in terminated[|old(terminated)|..] ==> e in forwardedPods.Values && e.cancel
    {
      var n := |terminated|;
      var left := forwardedPods.Keys;
      while left != {}
        invariant left <= forwardedPods.Keys
        invariant n <= |terminated| <= n + |forwardedPods| - |left|
        invariant terminated[..n] == old(terminated)
        invariant forall k :: k in forwardedPods && k !in left && forwardedPods[k].cancel ==> forwardedPods[k] in terminated[n..]
        invariant forall e :: e in terminated[n..] ==> e in forwardedPods.Values && e.cancel
        decreases |left|
      {
        var k :| k in left;
        ghost var before := terminated[n..];
        TerminateEntry(forwardedPods[k]);
        assert terminated[n..] == before + (if forwardedPods[k].cancel then [forwardedPods[k]] else []);
        left := left - {k};
      }
    }

    /** `getCurrentEntry`. */
    method GetCurrentEntry(resource: Resource, version: int, available: (int, set<int>) -> int) returns (e: Entry)
      modifies forwardedPorts
      ensures var spec := CurrentEntry(old(State()), resource, version, available);
        e == spec.0 && forwardedPorts.ports == spec.1.ports
    {
      e := NewEntry(resource).(resourceVersion := version);
      if Key(e) in forwardedPods {
        return e.(localPort := forwardedPods[Key(e)].localPort);
      }
      var p := available(resource.port, forwardedPorts.ports);
      forwardedPorts.ports := forwardedPorts.ports + {p};
      return e.(localPort := p);
    }

    /** `forward`. */
    method Forward(e: Entry, connected: bool) returns (err: Option<string>)
      modifies this`forwardedPods, this`terminated, this`forwarded
      ensures (State(), err) == ForwardEntry(old(State()), e, connected)
    {
      var k := Key(e);
      if k in forwardedPods && e.resourceVersion > forwardedPods[k].resourceVersion {
        TerminateEntry(forwardedPods[k]);
      }
      forwardedPods := forwardedPods[k := e.(cancel := true)];
      forwarded := forwarded + [e];
      if !connected {
        return Some(ErrWaitTimeout);
      }
      return None;
    }

    /** The body of `portForwardPod`'s inner loop for one container port. */
    method ForwardContainerPort(pod: P.Pod, port: int, available: (int, set<int>) -> int, connected: Entry -> bool)
      returns (err: Option<string>)
      modifies this`forwardedPods, this`terminated, this`forwarded, forwardedPorts
      ensures (State(), err) == PortStep(old(State()), pod, port, available, connected)
    {
      var version := Atoi(pod.resourceVersion);
      if version.Err? {
        return Some(Wrap(ErrVersion, version.error));
      }
      var entry := GetCurrentEntry(P.PodResource(pod, port), version.value, available);
      var (updated, uerr) := UpdateEntryWithPodDetails(pod, entry.resource, entry);
      if uerr.Some? {
        return Some(Wrap(ErrUpdate, uerr.value));
      }
      var ferr := Forward(updated, connected(updated));
      if ferr.Some? {
        return Some(Wrap("failed to forward port", ferr.value));
      }
      return None;
    }

    /** The first of the remaining ports, stated against `ForwardPorts` on all of them. */
    method ForwardFirstPort(pod: P.Pod, ports: seq<int>, available: (int, set<int>) -> int, connected: Entry -> bool)
      returns (err: Option<string>)
      requires |ports| > 0
      modifies this`forwardedPods, this`terminated, this`forwarded, forwardedPorts
      ensures var spec := ForwardPorts(old(State()), pod, ports, available, connected);
        if err.Some? then (State(), err) == spec else ForwardPorts(State(), pod, ports[1..], available, connected) == spec
    {
      err := ForwardContainerPort(pod, ports[0], available, connected);
    }

    /** `portForwardPod`'s inner loop: the ports of one container, then whatever `after` holds. */
    method ForwardContainer(pod: P.Pod, c: P.Container, after: seq<int>, available: (int, set<int>) -> int, connected: Entry -> bool)
      returns (err: Option<string>)
      modifies this`forwardedPods, this`terminated, this`forwarded, forwardedPorts
      ensures var spec := ForwardPorts(old(State()), pod, P.ContainerPorts(c.ports) + after, available, connected);
        if err.Some? then (State(), err) == spec else ForwardPorts(State(), pod, after, available, connected) == spec
    {
      var j := 0;
      while j < |c.ports|
        invariant 0 <= j <= |c.ports|
        invariant ForwardPorts(State(), pod, P.ContainerPorts(c.ports)[j..] + after, available, connected)
               == ForwardPorts(old(State()), pod, P.ContainerPorts(c.ports) + after, available, connected)
      {
        var rest := P.ContainerPorts(c.ports)[j..] + after;
        P.SliceCons(P.ContainerPorts(c.ports), j, after);
        err := ForwardFirstPort(pod, rest, available, connected);
        if err.Some? {
          return;
        }
        j := j + 1;
      }
      P.SliceEnd(P.ContainerPorts(c.ports), after);
      return None;
    }

    /** `portForwardPod`: every port of every container in turn; the first failure stops it. */
    method PortForwardPod(pod: P.Pod, available: (int, set<int>) -> int, connected: Entry -> bool) returns (err: Option<string>)
      modifies this`forwardedPods, this`terminated, this`forwarded, forwardedPorts
      ensures (State(), err) == ForwardPorts(old(State()), pod, P.PortsOf(pod.containers), available, connected)
    {
      var i := 0;
      while i < |pod.containers|
        invariant 0 <= i <= |pod.containers|
        invariant ForwardPorts(State(), pod, P.PortsOf(pod.containers[i..]), available, connected)
               == ForwardPorts(old(State()), pod, P.PortsOf(pod.containers), available, connected)
      {
        var c := pod.containers[i];
        assert P.PortsOf(pod.containers[i..]) == P.ContainerPorts(c.ports) + P.PortsOf(pod.containers[i + 1..]) by {
          assert pod.containers[i..][1..] == pod.containers[i + 1..];
        }
        err := ForwardContainer(pod, c, P.PortsOf(pod.containers[i + 1..]), available, connected);
        if err.Some? {
          return;
        }
        i := i + 1;
      }
      assert P.PortsOf(pod.containers[i..]) == [];
      return None;
    }

    /**
     * `Start`: a failing pod watcher is reported and nothing is forwarded;
     * otherwise every forwardable event's pod is forwarded in turn and nil is
     * returned (failures are only logged).
     */
    method Start(watcherErr: Option<string>, events: seq<P.WatchEvent>, selected: P.Pod -> bool,
                 available: (int, set<int>) -> int, connected: Entry -> bool) returns (err: Option<string>)
      modifies this`forwardedPods, this`terminated, this`forwarded, forwardedPorts
      ensures watcherErr.Some? ==> err == Some(Wrap("initializing pod watcher", watcherErr.value)) && State() == old(State())
      ensures watcherErr.None? ==> err.None? && State() == HandleEvents(old(State()), events, selected, available, connected)
    {
      if watcherErr.Some? {
        return Some(Wrap("initializing pod watcher", watcherErr.value));
      }
      var i := 0;
      while i < |events|
        invariant 0 <= i <= |events|
        invariant HandleEvents(State(), events[i..], selected, available, connected)
               == HandleEvents(old(State()), events, selected, available, connected)
      {
        assert events[i..][1..] == events[i + 1..];
        if P.Forwardable(events[i], selected) {
          var _ := PortForwardPod(events[i].pod.value, available, connected);
        }
        i := i + 1;
      }
      return None;
    }
  }
}
