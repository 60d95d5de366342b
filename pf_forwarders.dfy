/**
 * The list of forwarders of portforward/forwarder.go: the resource
 * forwarder always, the automatic pod forwarder on request, all sharing one
 * set of taken local ports; starting, stopping and terminating act on every
 * forwarder of the list.
 */
module Forwarders {
  import opened Errors
  import opened PortForwardEntry
  import PodForwarder
  import ResourceForwarder

  /** One element of `forwarders`. */
  datatype Forwarder =
    | Resources(rf: ResourceForwarder.PortForwarder)
    | Pods(pf: PodForwarder.AutomaticPodForwarder)
  {
    /** The object behind the interface value. */
    function Obj(): object
    {
      match this
      case Resources(rf) => rf
      case Pods(pf) => pf
    }

    /** The set of local ports it takes from. */
    function Ports(): PortSet
    {
      match this
      case Resources(rf) => rf.forwardedPorts
      case Pods(pf) => pf.forwardedPorts
    }

    /** Its filed entries. */
    ghost function Entries(): map<string, Entry>
      reads Obj()
    {
      match this
      case Resources(rf) => rf.forwardedResources
      case Pods(pf) => pf.forwardedPods
    }

    /** The entries it has terminated. */
    ghost function Terminated(): seq<Entry>
      reads Obj()
    {
      match this
      case Resources(rf) => rf.terminated
      case Pods(pf) => pf.terminated
    }
  }

  /** No forwarder appears twice in the list. */
  ghost predicate Distinct(fs: seq<Forwarder>)
  {
    forall i, j :: 0 <= i < |fs| && 0 <= j < |fs| && i != j ==> fs[i].Obj() != fs[j].Obj()
  }

  ghost function Objs(fs: seq<Forwarder>): set<object>
  {
    set i | 0 <= i < |fs| :: fs[i].Obj()
  }

  /**
   * `GetForwarders`: the resource forwarder first, then the automatic pod
   * forwarder only when automatic pod forwarding is on; both new, with no
   * entries, and sharing one new, empty port set.
   */
  method GetForwarders(automaticPodForwarding: bool) returns (fs: seq<Forwarder>)
    ensures |fs| == if automaticPodForwarding then 2 else 1
    ensures fs[0].Resources? && (automaticPodForwarding ==> fs[1].Pods?)
    ensures Distinct(fs)
    ensures fresh(fs[0].Ports()) && fs[0].Ports().ports == {}
    ensures forall i :: 0 <= i < |fs| ==> fresh(fs[i].Obj()) && fs[i].Ports() == fs[0].Ports() && fs[i].Entries() == map[]
  {
    var ports := new PortSet();
    var pf := new ResourceForwarder.PortForwarder(ports);
    fs := [Resources(pf)];
    if automaticPodForwarding {
      var apf := new PodForwarder.AutomaticPodForwarder(ports);
      fs := fs + [Pods(apf)];
    }
  }

  /** The warnings `Start` logs: one per forwarder whose own Start failed, in order. */
  function StartWarnings(startErrs: seq<Option<string>>): (r: seq<string>)
    ensures |r| <= |startErrs|
    ensures (forall i :: 0 <= i < |startErrs| ==> startErrs[i].None?) <==> r == []
    decreases |startErrs|
  {
    if |startErrs| == 0 then []
    else
      var last := startErrs[|startErrs| - 1];
      StartWarnings(startErrs[..|startErrs| - 1]) + (if last.Some? then [Wrap("unable to port forward", last.value)] else [])
  }

  /**
   * `forwarders.Start`: every forwarder is started in order (`startErrs[i]`
   * is what the i-th Start returned); failures are only logged and nil is
   * returned.
   */
  method Start(fs: seq<Forwarder>, startErrs: seq<Option<string>>) returns (err: Option<string>, warnings: seq<string>)
    requires |startErrs| == |fs|
    ensures err.None? && warnings == StartWarnings(startErrs)
  {
    warnings := [];
    var i := 0;
    while i < |fs|
      invariant 0 <= i <= |fs|
      invariant warnings == StartWarnings(startErrs[..i])
    {
      assert startErrs[..i + 1][..i] == startErrs[..i];
      if startErrs[i].Some? {
        warnings := warnings + [Wrap("unable to port forward", startErrs[i].value)];
      }
      i := i + 1;
    }
    assert startErrs[..i] == startErrs;
    return None, warnings;
  }

  /** Stopping one forwarder terminates every entry it had filed. */
  method StopOne(f: Forwarder)
    modifies f.Obj()
    ensures f.Entries() == old(f.Entries())
    ensures old(f.Terminated()) <= f.Terminated()
    ensures forall k :: k in f.Entries() ==> f.Entries()[k] in f.Terminated()
  {
    match f
    case Resources(rf) =>
      rf.Stop();
      assert forall e :: e in rf.terminated[|old(rf.terminated)|..] ==> e in rf.terminated;
    case Pods(pf) =>
      pf.Stop();
      assert forall e :: e in pf.terminated[|old(pf.terminated)|..] ==> e in pf.terminated;
  }

  /** `forwarders.Stop`: every forwarder is stopped, so every filed entry of each is terminated; nil is returned. */
  method Stop(fs: seq<Forwarder>) returns (err: Option<string>)
    requires Distinct(fs)
    modifies Objs(fs)
    ensures err.None?
    ensures forall i :: 0 <= i < |fs| ==> fs[i].Entries() == old(fs[i].Entries()) && old(fs[i].Terminated()) <= fs[i].Terminated()
    ensures forall i, k :: 0 <= i < |fs| && k in fs[i].Entries() ==> fs[i].Entries()[k] in fs[i].Terminated()
  {
    var i := 0;
    while i < |fs|
      invariant 0 <= i <= |fs|
      invariant forall j :: 0 <= j < |fs| ==> fs[j].Entries() == old(fs[j].Entries()) && old(fs[j].Terminated()) <= fs[j].Terminated()
      invariant forall j, k :: 0 <= j < i && k in fs[j].Entries() ==> fs[j].Entries()[k] in fs[j].Terminated()
    {
      StopOne(fs[i]);
      i := i + 1;
    }
    return None;
  }

  /** `forwarders.Terminate`: does nothing and returns nil. */
  method Terminate(fs: seq<Forwarder>, e: Entry) returns (err: Option<string>)
    ensures err.None?
  {
    return None;
  }
}
