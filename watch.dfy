/**
 * The polling file watcher: a list of registered components, each with its
 * last file snapshot and last events, ticked by a trigger. `Stat` and the
 * trigger are collaborators: a tick receives the snapshot `Stat` returned
 * for every component, and the trigger's debounce setting is fixed at
 * construction.
 */
module Watch {
  import opened Errors

  /** A snapshot of a component's dependencies: path to modification stamp. */
  type FileMap = map<string, int>

  /** The paths that appeared, changed stamp, or vanished between two snapshots. */
  datatype Events = Events(added: seq<string>, modified: seq<string>, deleted: seq<string>)
  {
    predicate HasChanged() { |added| > 0 || |modified| > 0 || |deleted| > 0 }
  }

  const NoEvents: Events := Events([], [], [])

  /** `r` lists the elements of `s`, each exactly once, in some order. */
  ghost predicate Lists(r: seq<string>, s: set<string>)
  {
    (forall x :: x in r <==> x in s) && (forall i, j :: 0 <= i < j < |r| ==> r[i] != r[j])
  }

  /** `e` is the difference from `prev` to `curr`. */
  ghost predicate IsEventsOf(prev: FileMap, curr: FileMap, e: Events)
  {
    Lists(e.added, curr.Keys - prev.Keys)
    && Lists(e.modified, set p | p in prev && p in curr && prev[p] != curr[p])
    && Lists(e.deleted, prev.Keys - curr.Keys)
  }

  /** The events of two snapshots are non-empty exactly when the snapshots differ. */
  lemma ChangedIffSnapshotsDiffer(prev: FileMap, curr: FileMap, e: Events)
    requires IsEventsOf(prev, curr, e)
    ensures e.HasChanged() <==> prev != curr
  {
    if !e.HasChanged() {
      forall p | p in curr ensures p in prev {
        assert p in curr.Keys - prev.Keys ==> p in e.added;
      }
      forall p | p in prev ensures p in curr && prev[p] == curr[p] {
        assert p in prev.Keys - curr.Keys ==> p in e.deleted;
        assert p in curr && prev[p] != curr[p] ==> p in e.modified;
      }
      assert prev.Keys == curr.Keys;
    } else if |e.added| > 0 {
      assert e.added[0] in curr.Keys - prev.Keys;
    } else if |e.deleted| > 0 {
      assert e.deleted[0] in prev.Keys - curr.Keys;
    } else {
      assert e.modified[0] in e.modified;
    }
  }

  /** A list without repetitions holds each element of its set once. */
  lemma {:induction false} ListsMultiset(r: seq<string>, s: set<string>)
    requires Lists(r, s)
    ensures multiset(r) == multiset(s)
    decreases |r|
  {
    if |r| == 0 {
      assert forall x :: x in s ==> x in r;
    } else {
      var last := r[|r| - 1];
      var r' := r[..|r| - 1];
      assert r == r' + [last];
      assert last !in r' by {
        forall i | 0 <= i < |r'| ensures r'[i] != last { assert r[i] != r[|r| - 1]; }
      }
      assert Lists(r', s - {last}) by {
        forall x ensures x in r' <==> x in s - {last} {
          if x in r' { assert x in r; }
          if x in s - {last} { assert x in r; var k :| 0 <= k < |r| && r[k] == x; assert k < |r| - 1; assert r'[k] == x; }
        }
      }
      ListsMultiset(r', s - {last});
      assert s == (s - {last}) + {last};
    }
  }

  /** The elements of a set in an order the model leaves open (Go's map iteration order). */
  method Enumerate(s: set<string>) returns (r: seq<string>)
    ensures Lists(r, s)
  {
    r := [];
    var rest := s;
    while rest != {}
      invariant rest <= s
      invariant Lists(r, s - rest)
      decreases |rest|
    {
      var x :| x in rest;
      r := r + [x];
      rest := rest - {x};
    }
  }

  /** The events between two snapshots, each list in an unspecified order (the watcher's `events`). */
  method Diff(prev: FileMap, curr: FileMap) returns (e: Events)
    ensures IsEventsOf(prev, curr, e)
  {
    var added := Enumerate(curr.Keys - prev.Keys);
    var modified := Enumerate(set p | p in prev && p in curr && prev[p] != curr[p]);
    var deleted := Enumerate(prev.Keys - curr.Keys);
    e := Events(added, modified, deleted);
  }

  /** A registered component: its change handler (a label here), its stored snapshot and its last events. */
  datatype Component<H> = Component(handler: H, state: FileMap, events: Events)

  /** What a tick does to the outside world, in order. */
  datatype Action<H, S> =
    | CallHandler(handler: H, events: Events)
    | Notify(subscriber: S, event: string, data: seq<string>)
    | CallFinal

  /** One wake-up of the run loop: cancellation, or a trigger tick with each component's fresh `Stat` result. */
  datatype Signal = Cancelled | Tick(snapshots: seq<Result<FileMap>>)

  datatype Outcome = Continue | Return(err: Option<string>)

  /** The debounce rule deciding whether a tick fires the callbacks. */
  function Fires(debounce: bool, changedNow: nat, marked: nat): bool
  {
    (!debounce && changedNow > 0) || (debounce && changedNow == 0 && marked > 0)
  }

  /** A component after a tick that saw `snap`: untouched when nothing changed, else new state and the new events. */
  ghost predicate Refreshed<H>(before: Component<H>, snap: FileMap, after: Component<H>)
  {
    if before.state == snap then after == before
    else after.handler == before.handler && after.state == snap && IsEventsOf(before.state, snap, after.events)
  }

  /** Index of the first failed snapshot, or the count when all succeeded. */
  function FirstFailure(snaps: seq<Result<FileMap>>): (n: nat)
    ensures n <= |snaps|
    ensures forall k :: 0 <= k < n ==> snaps[k].Ok?
    ensures n < |snaps| ==> snaps[n].Err?
  {
    if |snaps| == 0 then 0
    else if snaps[0].Err? then 0
    else 1 + FirstFailure(snaps[1..])
  }

  /** Component `k`'s tick snapshot succeeded and differs from the stored one. */
  ghost predicate Differs<H>(cs: seq<Component<H>>, snaps: seq<Result<FileMap>>, k: nat)
    requires k < |cs| && k < |snaps|
  {
    snaps[k].Ok? && cs[k].state != snaps[k].value
  }

  /** Indices below `n` whose snapshot differs from the stored one. */
  ghost function ChangedIndices<H>(cs: seq<Component<H>>, snaps: seq<Result<FileMap>>, n: nat): (r: set<nat>)
    requires n <= |cs| && n <= |snaps|
    ensures forall k :: k in r ==> k < n
  {
    if n == 0 then {}
    else ChangedIndices(cs, snaps, n - 1) + (if Differs(cs, snaps, n - 1) then {n - 1} else {})
  }

  /** How many indices below `n` differ: the tick's `changed` counter. */
  function ChangedCount<H>(cs: seq<Component<H>>, snaps: seq<Result<FileMap>>, n: nat): nat
    requires n <= |cs| && n <= |snaps|
  {
    if n == 0 then 0
    else ChangedCount(cs, snaps, n - 1) + (if snaps[n - 1].Ok? && cs[n - 1].state != snaps[n - 1].value then 1 else 0)
  }

  /** The counter equals the number of marked indices, so `changed > 0` iff some component was marked this tick. */
  lemma {:induction false} ChangedCountIsCardinality<H>(cs: seq<Component<H>>, snaps: seq<Result<FileMap>>, n: nat)
    requires n <= |cs| && n <= |snaps|
    ensures ChangedCount(cs, snaps, n) == |ChangedIndices(cs, snaps, n)|
  {
    if n > 0 {
      ChangedCountIsCardinality(cs, snaps, n - 1);
      assert n - 1 !in ChangedIndices(cs, snaps, n - 1);
    }
  }

  /** Compares a component's stored snapshot with `snap`; on a difference the component takes it, with its events. */
  method RefreshComponent<H>(c: Component<H>, snap: FileMap) returns (after: Component<H>, differs: bool)
    ensures differs <==> c.state != snap
    ensures Refreshed(c, snap, after)
  {
    var e := Diff(c.state, snap);
    ChangedIffSnapshotsDiffer(c.state, snap, e);
    differs := e.HasChanged();
    after := if differs then Component(c.handler, snap, e) else c;
  }

  /** The handler calls of a fire: every marked component below `n`, in registration order, with its stored events. */
  ghost function HandlerCalls<H, S>(cs: seq<Component<H>>, marked: set<nat>, n: nat): seq<Action<H, S>>
    requires n <= |cs|
  {
    if n == 0 then []
    else
      var last: seq<Action<H, S>> := if n - 1 in marked then [CallHandler(cs[n - 1].handler, cs[n - 1].events)] else [];
      HandlerCalls<H, S>(cs, marked, n - 1) + last
  }

  /** The "change" payload of a fire, as a multiset: every path of every marked component's current snapshot. */
  ghost function Payload<H>(cs: seq<Component<H>>, marked: set<nat>, n: nat): multiset<string>
    requires n <= |cs|
  {
    if n == 0 then multiset{}
    else
      var last := if n - 1 in marked then multiset(cs[n - 1].state.Keys) else multiset{};
      Payload(cs, marked, n - 1) + last
  }

  /** Delivery of one event to every subscriber, in subscription order. */
  ghost predicate Broadcast<H, S>(subs: seq<S>, event: string, data: seq<string>, r: seq<Action<H, S>>)
  {
    |r| == |subs| && forall i :: 0 <= i < |r| ==> r[i] == Notify(subs[i], event, data)
  }

  class WatchList<H, S> {
    var components: seq<Component<H>>
    var subscribers: seq<S>
    /** The components marked changed since the last fire (`changedComponents`). */
    var changed: set<nat>
    /** The trigger's debounce setting. */
    const debounce: bool

    ghost predicate Valid()
      reads this
    {
      forall k :: k in changed ==> k < |components|
    }

    constructor (debounce: bool)
      ensures Valid()
      ensures this.debounce == debounce && components == [] && subscribers == [] && changed == {}
    {
      this.debounce := debounce;
      components := [];
      subscribers := [];
      changed := {};
    }

    method Subscribe(s: S)
      modifies this
      ensures subscribers == old(subscribers) + [s]
      ensures components == old(components) && changed == old(changed)
    {
      subscribers := subscribers + [s];
    }

    /** Delivers `event` with `data` to each subscriber in turn. */
    method HandleEvent(event: string, data: seq<string>) returns (deliveries: seq<Action<H, S>>)
      ensures Broadcast(subscribers, event, data, deliveries)
    {
      deliveries := [];
      var i := 0;
      while i < |subscribers|
        invariant 0 <= i <= |subscribers|
        invariant Broadcast(subscribers[..i], event, data, deliveries)
      {
        deliveries := deliveries + [Notify(subscribers[i], event, data)];
        i := i + 1;
      }
    }

    /** Adds a component with the snapshot `listing` that `Stat` produced for its dependencies. */
    method Register(listing: Result<FileMap>, handler: H) returns (err: Option<string>)
      requires Valid()
      modifies this
      ensures Valid()
      ensures listing.Err? ==> err == Some(Wrap("listing files", listing.error)) && components == old(components)
      ensures listing.Ok? ==> err == None && components == old(components) + [Component(handler, listing.value, NoEvents)]
      ensures subscribers == old(subscribers) && changed == old(changed)
    {
      if listing.Err? {
        return Some(Wrap("listing files", listing.error));
      }
      components := components + [Component(handler, listing.value, NoEvents)];
      err := None;
    }

    /** Start of `Run`: a trigger that fails to start ends it; otherwise no component is marked. */
    method Start(triggerErr: Option<string>) returns (err: Option<string>)
      requires Valid()
      modifies this
      ensures Valid()
      ensures components == old(components) && subscribers == old(subscribers)
      ensures triggerErr.Some? ==> err == Some(Wrap("unable to start trigger", triggerErr.value)) && changed == old(changed)
      ensures triggerErr.None? ==> err == None && changed == {}
    {
      if triggerErr.Some? {
        return Some(Wrap("unable to start trigger", triggerErr.value));
      }
      changed := {};
      err := None;
    }

    /**
     * The first half of a tick: re-snapshot every component in order, stopping
     * at the first failed `Stat`. Returns how many components changed and the
     * index of the failure, if any.
     */
    method Refresh(snaps: seq<Result<FileMap>>) returns (count: nat, n: nat)
      requires Valid() && |snaps| == |components|
      modifies this`components, this`changed
      ensures Valid()
      ensures |components| == |old(components)|
      ensures n == FirstFailure(snaps)
      ensures forall k :: 0 <= k < n ==> Refreshed(old(components)[k], snaps[k].value, components[k])
      ensures forall k :: n <= k < |components| ==> components[k] == old(components)[k]
      ensures changed == old(changed) + ChangedIndices(old(components), snaps, n)
      ensures count == ChangedCount(old(components), snaps, n)
    {
      var cs := components;
      var marks := changed;
      count := 0;
      n := 0;
      while n < |cs|
        invariant 0 <= n <= |cs| == |old(components)| == |snaps|
        invariant forall k :: 0 <= k < n ==> snaps[k].Ok? && Refreshed(old(components)[k], snaps[k].value, cs[k])
        invariant forall k :: n <= k < |cs| ==> cs[k] == old(components)[k]
        invariant marks == old(changed) + ChangedIndices(old(components), snaps, n)
        invariant count == ChangedCount(old(components), snaps, n)
      {
        if snaps[n].Err? {
          break;
        }
        var after, differs := RefreshComponent(cs[n], snaps[n].value);
        cs := cs[n := after];
        if differs {
          marks := marks + {n};
          count := count + 1;
        }
        n := n + 1;
      }
      components, changed := cs, marks;
    }

    /**
     * The second half of a firing tick: the marked components' handlers in
     * registration order, then "change" with their paths to every subscriber,
     * then the final callback, whose result `finalErr` decides whether the
     * marks are cleared.
     */
    method Fire(finalErr: Option<string>) returns (out: Outcome, actions: seq<Action<H, S>>, paths: seq<string>)
      requires Valid()
      modifies this`changed
      ensures Valid()
      ensures multiset(paths) == Payload(components, old(changed), |components|)
      ensures exists notes: seq<Action<H, S>> ::
        Broadcast(subscribers, "change", paths, notes)
        && actions == HandlerCalls(components, old(changed), |components|) + notes + [CallFinal]
      ensures finalErr.None? ==> out == Continue && changed == {}
      ensures finalErr.Some? ==> out == Return(Some(Wrap("calling final callback", finalErr.value))) && changed == old(changed)
    {
      var calls: seq<Action<H, S>> := [];
      paths := [];
      var j := 0;
      while j < |components|
        invariant 0 <= j <= |components|
        invariant changed == old(changed)
        invariant calls == HandlerCalls(components, changed, j)
        invariant multiset(paths) == Payload(components, changed, j)
      {
        if j in changed {
          var keys := Enumerate(components[j].state.Keys);
          ListsMultiset(keys, components[j].state.Keys);
          paths := paths + keys;
          calls := calls + [CallHandler(components[j].handler, components[j].events)];
        }
        j := j + 1;
      }
      var notes := HandleEvent("change", paths);
      actions := calls + notes + [CallFinal];
      if finalErr.Some? {
        return Return(Some(Wrap("calling final callback", finalErr.value))), actions, paths;
      }
      changed := {};
      out := Continue;
    }

    /**
     * One turn of `Run`'s loop: cancellation ends the run without error; a tick
     * refreshes the components and fires when the debounce rule says so.
     * `finalErr` is what the final callback returns if it is called.
     */
    method Step(signal: Signal, finalErr: Option<string>) returns (out: Outcome, actions: seq<Action<H, S>>, payload: seq<string>)
      requires Valid()
      requires signal.Tick? ==> |signal.snapshots| == |components|
      modifies this
      ensures Valid()
      ensures subscribers == old(subscribers) && |components| == |old(components)|
      ensures signal.Cancelled? ==> out == Return(None) && actions == [] && components == old(components) && changed == old(changed)
      ensures signal.Tick? ==>
        var snaps := signal.snapshots;
        var n := FirstFailure(snaps);
        (forall k :: 0 <= k < n ==> Refreshed(old(components)[k], snaps[k].value, components[k]))
        && (forall k :: n <= k < |components| ==> components[k] == old(components)[k])
        && (n < |snaps| ==> out == Return(Some(Wrap("listing files", snaps[n].error))) && actions == [])
        && (n == |snaps| ==>
             var marked := old(changed) + ChangedIndices(old(components), snaps, n);
             if !Fires(debounce, ChangedCount(old(components), snaps, n), |marked|) then
               out == Continue && actions == [] && changed == marked
             else
               multiset(payload) == Payload(components, marked, |components|)
               && (exists notes: seq<Action<H, S>> ::
                 Broadcast(subscribers, "change", payload, notes)
                 && actions == HandlerCalls(components, marked, |components|) + notes + [CallFinal])
               && (finalErr.None? ==> out == Continue && changed == {})
               && (finalErr.Some? ==> out == Return(Some(Wrap("calling final callback", finalErr.value))) && changed == marked))
    {
      payload := [];
      if signal.Cancelled? {
        return Return(None), [], payload;
      }
      var snaps := signal.snapshots;
      var count, n := Refresh(snaps);
      if n < |snaps| {
        return Return(Some(Wrap("listing files", snaps[n].error))), [], payload;
      }
      if !Fires(debounce, count, |changed|) {
        return Continue, [], payload;
      }
      out, actions, payload := Fire(finalErr);
    }
  }
}
