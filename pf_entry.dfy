/**
 * A port-forward entry (port_forward_entry.go) and the two keys the
 * forwarders file entries under: `key` names the forwarded resource and
 * port, `podKey` the container port inside a pod. Also the bookkeeping the
 * forwarders share: a table of entries by key, the set of local ports taken,
 * and the trace of Forward and Terminate actions, which are collaborators.
 */
module PortForwardEntry {
  import opened Strs

  /** The contexts the forwarders wrap their errors in. */
  const ErrVersion := "converting resource version to integer"
  const ErrNames := "retrieving container and port name for "
  const ErrUpdate := "updating port forward entry with pod details"
  const ErrPodEntry := "getting automatic pod forwarding entry"

  /** The error `wait.PollImmediate` reports when the condition never held. */
  const ErrWaitTimeout := "timed out waiting for the condition"

  /** `latest.PortForwardResource`: what to forward (its `Type` is `kind` here). */
  datatype Resource = Resource(kind: string, name: string, namespace: string, port: int)

  /**
   * `portForwardEntry`. `cancel` says whether a cancel handle has been
   * installed by a forward.
   */
  datatype Entry = Entry(
    resourceVersion: int,
    resource: Resource,
    podName: string,
    containerName: string,
    portName: string,
    localPort: int,
    cancel: bool)

  /** A fresh entry for a resource: every other field at its zero value. */
  function NewEntry(resource: Resource): (e: Entry)
    ensures e.resource == resource && e.resourceVersion == 0 && e.localPort == 0 && !e.cancel
    ensures e.podName == "" && e.containerName == "" && e.portName == ""
  {
    Entry(0, resource, "", "", "", 0, false)
  }

  /** `%s-%s-%s-%d` of four fields. */
  function Dashed(a: string, b: string, c: string, n: int): string
  {
    a + "-" + b + "-" + c + "-" + FormatInt(n)
  }

  /** `key`: type, name, namespace and port of the resource. */
  function Key(e: Entry): string
  {
    Dashed(e.resource.kind, e.resource.name, e.resource.namespace, e.resource.port)
  }

  /** `podKey`: container name, namespace, port name and port. */
  function PodKey(e: Entry): string
  {
    Dashed(e.containerName, e.resource.namespace, e.portName, e.resource.port)
  }

  /** `String`: the same text as the key. */
  function String(e: Entry): (r: string)
    ensures r == Key(e)
  {
    e.resource.kind + "-" + e.resource.name + "-" + e.resource.namespace + "-" + FormatInt(e.resource.port)
  }

  /**
   * The key depends on the resource alone: successive generations of a
   * resource (another version, pod, container or local port) share it.
   */
  lemma KeyIgnoresGeneration(e: Entry, version: int, podName: string, containerName: string, portName: string, localPort: int, cancel: bool)
    ensures Key(Entry(version, e.resource, podName, containerName, portName, localPort, cancel)) == Key(e)
    ensures PodKey(e.(resourceVersion := version, podName := podName, localPort := localPort, cancel := cancel,
                      resource := e.resource.(kind := containerName + portName, name := podName))) == PodKey(e)
  {
  }

  /** Two dashed keys with non-negative ports that are equal have the same port. */
  lemma {:induction false} DashedDeterminesPort(a: string, b: string, c: string, n: nat, a': string, b': string, c': string, n': nat)
    requires Dashed(a, b, c, n) == Dashed(a', b', c', n')
    ensures n == n'
  {
    var d, d' := FormatNat(n), FormatNat(n');
    var s := Dashed(a, b, c, n);
    assert s == (a + "-" + b + "-" + c) + "-" + d;
    assert s == (a' + "-" + b' + "-" + c') + "-" + d';
    DigitTail(a + "-" + b + "-" + c, d, a' + "-" + b' + "-" + c', d');
    DigitsValueOfFormat(n);
    DigitsValueOfFormat(n');
  }

  /** The digits after the last dash are determined by the text. */
  lemma DigitTail(p: string, d: string, p': string, d': string)
    requires p + "-" + d == p' + "-" + d'
    requires AllDigits(d) && AllDigits(d')
    ensures d == d'
  {
    var t := p + "-" + d;
    LastDash(p, d);
    LastDash(p', d');
    assert d == t[|t| - |d|..];
  }

  /** In `p-d` with `d` all digits, the dash sits just before `d` and only digits follow it. */
  lemma LastDash(p: string, d: string)
    requires AllDigits(d)
    ensures var t := p + "-" + d; t[|t| - |d| - 1] == '-' && forall i :: |t| - |d| <= i < |t| ==> IsDigit(t[i])
  {
    var t := p + "-" + d;
    forall i | |t| - |d| <= i < |t| ensures IsDigit(t[i]) {
      assert t[i] == d[i - (|t| - |d|)];
    }
  }

  /** Entries filed under the same key forward the same (non-negative) port; likewise for the pod key. */
  lemma SameKeySamePort(e: Entry, e': Entry)
    requires e.resource.port >= 0 && e'.resource.port >= 0
    ensures Key(e) == Key(e') ==> e.resource.port == e'.resource.port
    ensures PodKey(e) == PodKey(e') ==> e.resource.port == e'.resource.port
  {
    if Key(e) == Key(e') {
      DashedDeterminesPort(e.resource.kind, e.resource.name, e.resource.namespace, e.resource.port,
                           e'.resource.kind, e'.resource.name, e'.resource.namespace, e'.resource.port);
    }
    if PodKey(e) == PodKey(e') {
      DashedDeterminesPort(e.containerName, e.resource.namespace, e.portName, e.resource.port,
                           e'.containerName, e'.resource.namespace, e'.portName, e'.resource.port);
    }
  }

  /** `%d` of a four-digit number. */
  lemma FourDigits(n: nat)
    requires 1000 <= n < 10000
    ensures FormatInt(n) == [DigitChar(n / 1000), DigitChar(n / 100 % 10), DigitChar(n / 10 % 10), DigitChar(n % 10)]
  {
    assert FormatNat(n / 1000) == [DigitChar(n / 1000)];
    assert FormatNat(n / 100) == FormatNat(n / 1000) + [DigitChar(n / 100 % 10)];
    assert FormatNat(n / 10) == FormatNat(n / 100) + [DigitChar(n / 10 % 10)];
  }

  /** The entry for port 8080 of pod "podName" in "default" prints as "pod-podName-default-8080". */
  lemma PodEntryString()
    ensures String(NewEntry(Resource("pod", "podName", "default", 8080))) == "pod-podName-default-8080"
  {
    FourDigits(8080);
  }

  /** The entry for port 9000 of deployment "depName" prints as "deployment-depName-namespace-9000". */
  lemma DeploymentEntryString()
    ensures String(NewEntry(Resource("deployment", "depName", "namespace", 9000))) == "deployment-depName-namespace-9000"
  {
    FourDigits(9000);
  }

  /**
   * A forwarder's bookkeeping: entries by key, the local ports taken
   * (`forwardedPorts`), and the entries handed to Terminate and to Forward,
   * in order.
   */
  datatype Table = Table(entries: map<string, Entry>, ports: set<int>, terminated: seq<Entry>, forwarded: seq<Entry>)

  /** Every entry is filed under its own key. */
  ghost predicate KeyedBy(entries: map<string, Entry>, key: Entry -> string)
  {
    forall k :: k in entries ==> key(entries[k]) == k
  }

  /**
   * `util.GetAvailablePort`, which is not part of this model: `available`
   * picks a free port starting from the wanted one, and the port is recorded
   * as taken.
   */
  function Allocate(t: Table, wanted: int, available: (int, set<int>) -> int): (r: (int, Table))
    ensures r.0 == available(wanted, t.ports) && r.1 == t.(ports := t.ports + {r.0})
  {
    var p := available(wanted, t.ports);
    (p, t.(ports := t.ports + {p}))
  }

  /** Whether storing `e` supersedes the entry already filed under its key: a strictly newer version. */
  predicate Supersedes(t: Table, k: string, e: Entry)
  {
    k in t.entries && e.resourceVersion > t.entries[k].resourceVersion
  }

  /**
   * The bookkeeping of a forward: the entry filed under `k` is terminated
   * when `e` is a strictly newer generation, and `e` takes the slot in every
   * case.
   */
  function Store(t: Table, k: string, e: Entry): (r: Table)
    ensures r.entries == t.entries[k := e] && r.ports == t.ports && r.forwarded == t.forwarded
    ensures Supersedes(t, k, e) ==> r.terminated == t.terminated + [t.entries[k]]
    ensures !Supersedes(t, k, e) ==> r.terminated == t.terminated
  {
    t.(entries := t.entries[k := e], terminated := t.terminated + (if Supersedes(t, k, e) then [t.entries[k]] else []))
  }

  /** Storing an entry under its own key keeps every entry filed under its key, and nothing but that slot changes. */
  lemma StoreKeepsKeys(t: Table, e: Entry, key: Entry -> string)
    requires KeyedBy(t.entries, key)
    ensures KeyedBy(Store(t, key(e), e).entries, key)
    ensures key(e) in Store(t, key(e), e).entries && Store(t, key(e), e).entries[key(e)] == e
    ensures forall k :: k in t.entries && k != key(e) ==> k in Store(t, key(e), e).entries && Store(t, key(e), e).entries[k] == t.entries[k]
  {
  }

  /**
   * The bookkeeping only grows: no key is dropped, no port freed, and
   * terminations and forwards are only appended.
   */
  ghost predicate Grows(t: Table, t': Table)
  {
    t.entries.Keys <= t'.entries.Keys && t.ports <= t'.ports && t.terminated <= t'.terminated && t.forwarded <= t'.forwarded
  }

  /** Every entry handed to Forward from position `from` on has an entry filed under its key. */
  ghost predicate Filed(t: Table, from: nat, key: Entry -> string)
  {
    forall i :: from <= i < |t.forwarded| ==> key(t.forwarded[i]) in t.entries
  }

  /** Every filed local port is recorded as taken, and no two slots share a local port. */
  ghost predicate PortsExclusive(t: Table)
  {
    && (forall k :: k in t.entries ==> t.entries[k].localPort in t.ports)
    && (forall k1, k2 :: k1 in t.entries && k2 in t.entries && k1 != k2 ==> t.entries[k1].localPort != t.entries[k2].localPort)
  }

  /** The port allocator never hands out a port it was told is taken. */
  ghost predicate FreeAllocator(available: (int, set<int>) -> int)
  {
    forall wanted, taken :: available(wanted, taken) !in taken
  }

  /**
   * Filing an entry keeps local ports exclusive when it reuses the local
   * port of the slot it replaces, or, for a new slot, takes a recorded port
   * that no slot holds.
   */
  lemma StoreKeepsPortsExclusive(t: Table, k: string, e: Entry)
    requires PortsExclusive(t) && e.localPort in t.ports
    requires k in t.entries ==> e.localPort == t.entries[k].localPort
    requires k !in t.entries ==> forall k' :: k' in t.entries ==> t.entries[k'].localPort != e.localPort
    ensures PortsExclusive(Store(t, k, e))
  {
  }

  /** `forwardedPorts`: the set of local ports taken, one object that several forwarders can share. */
  class PortSet {
    var ports: set<int>

    constructor ()
      ensures ports == {}
    {
      ports := {};
    }
  }
}
