/**
 * Inner-loop timings from an event log (hack/perf/metrics/inner_loop.go,
 * `splitEntriesByDevLoop`): the build, deploy and status-check times of each
 * dev loop, taken from the timestamps of the events in the log. Timestamps
 * are whole Unix seconds, as the source truncates them; times are kept in
 * nanoseconds, the unit of a Go `Duration`, including its saturation at the
 * bounds of a 64-bit integer. The conversion to floating-point seconds and
 * the reading of the log file are not part of this model.
 */
module InnerLoop {
  /** The statuses the loop tests for, and any other. */
  datatype Status = InProgress | Complete | Started | Succeeded | OtherStatus(name: string)

  /** The kinds of event in the log, with their status. */
  datatype Event = MetaEvent | DevLoopEvent(status: Status) | BuildEvent(status: Status) | DeployEvent(status: Status) | StatusCheckEvent(status: Status)

  /** A log entry: its timestamp in Unix seconds, and its event. */
  datatype LogEntry = LogEntry(timestamp: int, event: Event)

  /** `innerLoopMetric`, in nanoseconds. */
  datatype Metric = Metric(buildTime: int, deployTime: int, statusCheckTime: int)

  /** The zero `time.Time`, 1 January of year 1, in Unix seconds. */
  const ZeroTime: int := -62135596800

  const MaxDuration: int := 0x7fff_ffff_ffff_ffff
  const MinDuration: int := -0x8000_0000_0000_0000
  const Second: int := 1_000_000_000

  /** `t.Sub(u)` for whole-second times: the difference in nanoseconds, saturated at the bounds of a `Duration`. */
  function Sub(t: int, u: int): (r: int)
    ensures MinDuration <= r <= MaxDuration
    ensures MinDuration <= (t - u) * Second <= MaxDuration ==> r == (t - u) * Second
    ensures (t - u) * Second > MaxDuration ==> r == MaxDuration
    ensures (t - u) * Second < MinDuration ==> r == MinDuration
  {
    var d := (t - u) * Second;
    if d > MaxDuration then MaxDuration else if d < MinDuration then MinDuration else d
  }

  /** The loop's variables: the metric being filled, the three start times, and the metrics of the loops ended so far. */
  datatype State = State(current: Metric, buildStart: int, deployStart: int, statusCheckStart: int, ilms: seq<Metric>)

  const Initial := State(Metric(0, 0, 0), ZeroTime, ZeroTime, ZeroTime, [])

  /** One iteration of the loop over the log. */
  function Step(s: State, le: LogEntry): State
  {
    var t := le.timestamp;
    match le.event
    case MetaEvent => s
    case DevLoopEvent(status) =>
      if status == Succeeded then s.(buildStart := ZeroTime, deployStart := ZeroTime, statusCheckStart := ZeroTime, ilms := s.ilms + [s.current])
      else s
    case BuildEvent(status) =>
      if status == InProgress && s.buildStart == ZeroTime then s.(buildStart := t)
      else if status == Complete then s.(current := s.current.(buildTime := Sub(t, s.buildStart)))
      else s
    case DeployEvent(status) =>
      if status == InProgress then s.(deployStart := t)
      else if status == Complete then s.(current := s.current.(deployTime := Sub(t, s.deployStart)))
      else s
    case StatusCheckEvent(status) =>
      if status == Started then s.(statusCheckStart := t)
      else if status == Succeeded then s.(current := s.current.(statusCheckTime := Sub(t, s.statusCheckStart)))
      else s
  }

  /** The state after the entries, one at a time. */
  function RunFrom(s: State, entries: seq<LogEntry>): State
  {
    if |entries| == 0 then s else Step(RunFrom(s, entries[..|entries| - 1]), entries[|entries| - 1])
  }

  /** `splitEntriesByDevLoop`. */
  method SplitEntriesByDevLoop(entries: seq<LogEntry>) returns (ilms: seq<Metric>)
    ensures ilms == RunFrom(Initial, entries).ilms
  {
    var current := Metric(0, 0, 0);
    var buildStart, deployStart, statusCheckStart := ZeroTime, ZeroTime, ZeroTime;
    ilms := [];
    var i := 0;
    while i < |entries|
      invariant 0 <= i <= |entries|
      invariant State(current, buildStart, deployStart, statusCheckStart, ilms) == RunFrom(Initial, entries[..i])
    {
      assert entries[..i + 1][..i] == entries[..i];
      var le := entries[i];
      var t := le.timestamp;
      match le.event {
        case MetaEvent =>
        case DevLoopEvent(status) =>
          if status == Succeeded {
            buildStart, deployStart, statusCheckStart := ZeroTime, ZeroTime, ZeroTime;
            ilms := ilms + [current];
          }
        case BuildEvent(status) =>
          if status == InProgress && buildStart == ZeroTime {
            buildStart := t;
          } else if status == Complete {
            current := current.(buildTime := Sub(t, buildStart));
          }
        case DeployEvent(status) =>
          if status == InProgress {
            deployStart := t;
          } else if status == Complete {
            current := current.(deployTime := Sub(t, deployStart));
          }
        case StatusCheckEvent(status) =>
          if status == Started {
            statusCheckStart := t;
          } else if status == Succeeded {
            current := current.(statusCheckTime := Sub(t, statusCheckStart));
          }
      }
      i := i + 1;
    }
    assert entries[..i] == entries;
  }

  /** Whether an entry ends a dev loop. */
  predicate EndsLoop(le: LogEntry)
  {
    le.event == DevLoopEvent(Succeeded)
  }

  /** The number of dev loops the entries end. */
  function LoopsEnded(entries: seq<LogEntry>): nat
  {
    if |entries| == 0 then 0
    else LoopsEnded(entries[..|entries| - 1]) + (if EndsLoop(entries[|entries| - 1]) then 1 else 0)
  }

  /**
   * One metric per ended dev loop, each the metric being filled when the
   * loop ended; the metrics of earlier loops are never changed.
   */
  lemma {:induction false} OneMetricPerLoop(s: State, entries: seq<LogEntry>)
    ensures |RunFrom(s, entries).ilms| == |s.ilms| + LoopsEnded(entries)
    ensures RunFrom(s, entries).ilms[..|s.ilms|] == s.ilms
  {
    if |entries| > 0 {
      var n := |entries| - 1;
      OneMetricPerLoop(s, entries[..n]);
      var p := RunFrom(s, entries[..n]);
      assert RunFrom(s, entries).ilms[..|p.ilms|] == p.ilms;
      assert p.ilms[..|s.ilms|] == s.ilms;
    }
  }

  /** Running a log in two parts is running the second from where the first ended. */
  lemma {:induction false} RunFromAppend(s: State, a: seq<LogEntry>, b: seq<LogEntry>)
    ensures RunFrom(s, a + b) == RunFrom(RunFrom(s, a), b)
    decreases |b|
  {
    if |b| == 0 {
      assert a + b == a;
    } else {
      var b' := b[..|b| - 1];
      assert (a + b)[..|a + b| - 1] == a + b';
      RunFromAppend(s, a, b');
    }
  }

  /**
   * Only the first build start of a loop counts: a build that starts at
   * `t1`, completes, restarts and completes at `t4` took `t4 - t1`. A start
   * at the zero time itself would read as no start at all.
   */
  lemma BuildTimeFromFirstStart(s: State, t1: int, t2: int, t3: int, t4: int)
    requires s.buildStart == ZeroTime && t1 != ZeroTime
    ensures RunFrom(s, [LogEntry(t1, BuildEvent(InProgress)), LogEntry(t2, BuildEvent(Complete)),
                        LogEntry(t3, BuildEvent(InProgress)), LogEntry(t4, BuildEvent(Complete))]).current.buildTime == Sub(t4, t1)
  {
    var e := [LogEntry(t1, BuildEvent(InProgress)), LogEntry(t2, BuildEvent(Complete)),
              LogEntry(t3, BuildEvent(InProgress)), LogEntry(t4, BuildEvent(Complete))];
    assert e[..0] == [] && e[..|e|] == e;
    RunFromSnoc(s, e, 0);
    assert RunFrom(s, e[..1]).buildStart == t1;
    RunFromSnoc(s, e, 1);
    RunFromSnoc(s, e, 2);
    assert RunFrom(s, e[..3]).buildStart == t1;
    RunFromSnoc(s, e, 3);
  }

  /** Every deploy start counts: a deploy started at `t1` and again at `t2`, completing at `t3`, took `t3 - t2`. */
  lemma DeployTimeFromLastStart(s: State, t1: int, t2: int, t3: int)
    ensures RunFrom(s, [LogEntry(t1, DeployEvent(InProgress)), LogEntry(t2, DeployEvent(InProgress)),
                        LogEntry(t3, DeployEvent(Complete))]).current.deployTime == Sub(t3, t2)
  {
    var e := [LogEntry(t1, DeployEvent(InProgress)), LogEntry(t2, DeployEvent(InProgress)), LogEntry(t3, DeployEvent(Complete))];
    assert e[..2][..1][..0] == [];
  }

  /** The status-check time runs from `Started` to `Succeeded`. */
  lemma StatusCheckTime(s: State, t1: int, t2: int)
    ensures RunFrom(s, [LogEntry(t1, StatusCheckEvent(Started)), LogEntry(t2, StatusCheckEvent(Succeeded))]).current.statusCheckTime == Sub(t2, t1)
  {
    var e := [LogEntry(t1, StatusCheckEvent(Started)), LogEntry(t2, StatusCheckEvent(Succeeded))];
    assert e[..1][..0] == [];
  }

  /** Whether an entry is a status-check event. */
  predicate IsStatusCheck(le: LogEntry)
  {
    le.event.StatusCheckEvent?
  }

  /**
   * The metric being filled is never reset: in a stretch of log without a
   * status-check event, the status-check time stays what it was, even
   * across the end of a loop.
   */
  lemma {:induction false} StatusCheckTimeCarriesOver(s: State, entries: seq<LogEntry>)
    requires forall i :: 0 <= i < |entries| ==> !IsStatusCheck(entries[i])
    ensures RunFrom(s, entries).current.statusCheckTime == s.current.statusCheckTime
  {
    if |entries| > 0 {
      var n := |entries| - 1;
      assert !IsStatusCheck(entries[n]);
      StatusCheckTimeCarriesOver(s, entries[..n]);
    }
  }

  /** The end of a loop clears the three start times and keeps the metric being filled. */
  lemma LoopEndClearsStarts(s: State, t: int)
    ensures var r := Step(s, LogEntry(t, DevLoopEvent(Succeeded)));
      r.buildStart == r.deployStart == r.statusCheckStart == ZeroTime && r.current == s.current && r.ilms == s.ilms + [s.current]
  {
  }

  /** The first of two sample dev loops, `now` being the time the sample is built. */
  function FirstLoop(now: int): seq<LogEntry>
  {
    [LogEntry(now - 100, MetaEvent),
     LogEntry(now - 100, BuildEvent(InProgress)), LogEntry(now - 80, BuildEvent(Complete)),
     LogEntry(now - 80, DeployEvent(InProgress)), LogEntry(now - 70, DeployEvent(Complete)),
     LogEntry(now - 70, StatusCheckEvent(Started)), LogEntry(now - 65, StatusCheckEvent(Succeeded)),
     LogEntry(now - 65, DevLoopEvent(Succeeded))]
  }

  /** The second sample dev loop: two builds, one deploy, an instant status check. */
  function SecondLoop(now: int): seq<LogEntry>
  {
    [LogEntry(now - 100, MetaEvent),
     LogEntry(now - 65, DevLoopEvent(InProgress)),
     LogEntry(now - 60, BuildEvent(InProgress)), LogEntry(now - 55, BuildEvent(Complete)),
     LogEntry(now - 55, BuildEvent(InProgress)), LogEntry(now - 50, BuildEvent(Complete)),
     LogEntry(now - 50, DeployEvent(InProgress)), LogEntry(now - 30, DeployEvent(Complete)),
     LogEntry(now - 20, StatusCheckEvent(Started)), LogEntry(now - 20, StatusCheckEvent(Succeeded)),
     LogEntry(now - 15, DevLoopEvent(Succeeded))]
  }

  /** The sample log yields build, deploy and status-check times of 20, 10 and 5 seconds, then 10, 20 and 0. */
  lemma SampleLoops(now: int)
    requires now >= 100
    ensures RunFrom(Initial, FirstLoop(now) + SecondLoop(now)).ilms ==
      [Metric(20 * Second, 10 * Second, 5 * Second), Metric(10 * Second, 20 * Second, 0)]
  {
    RunFromAppend(Initial, FirstLoop(now), SecondLoop(now));
    var s1 := RunFrom(Initial, FirstLoop(now));
    FirstLoopRun(now);
    SecondLoopRun(now, s1);
  }

  /** The state after the first sample loop: its metric recorded, the start times cleared. */
  lemma FirstLoopRun(now: int)
    requires now >= 100
    ensures RunFrom(Initial, FirstLoop(now)) == State(Metric(20 * Second, 10 * Second, 5 * Second), ZeroTime, ZeroTime, ZeroTime,
      [Metric(20 * Second, 10 * Second, 5 * Second)])
  {
    var e := FirstLoop(now);
    assert e[..|e|] == e;
    FirstLoopBuild(now);
    RunFromSnoc(Initial, e, 3);
    RunFromSnoc(Initial, e, 4);
    assert RunFrom(Initial, e[..5]).current == Metric(20 * Second, 10 * Second, 0);
    RunFromSnoc(Initial, e, 5);
    RunFromSnoc(Initial, e, 6);
    assert RunFrom(Initial, e[..7]).current == Metric(20 * Second, 10 * Second, 5 * Second);
    RunFromSnoc(Initial, e, 7);
  }

  /** The first three entries of the first sample loop: a build of 20 seconds. */
  lemma FirstLoopBuild(now: int)
    requires now >= 100
    ensures RunFrom(Initial, FirstLoop(now)[..3]) == Initial.(buildStart := now - 100, current := Metric(20 * Second, 0, 0))
  {
    var e := FirstLoop(now);
    assert e[..0] == [];
    RunFromSnoc(Initial, e, 0);
    RunFromSnoc(Initial, e, 1);
    assert RunFrom(Initial, e[..2]) == Initial.(buildStart := now - 100);
    RunFromSnoc(Initial, e, 2);
  }

  /** One more entry is one more step. */
  lemma RunFromSnoc(s: State, e: seq<LogEntry>, k: nat)
    requires k < |e|
    ensures RunFrom(s, e[..k + 1]) == Step(RunFrom(s, e[..k]), e[k])
  {
    assert e[..k + 1][..k] == e[..k];
  }

  /** The second sample loop, run from the state the first left: a second metric is recorded. */
  lemma SecondLoopRun(now: int, s: State)
    requires s == State(Metric(20 * Second, 10 * Second, 5 * Second), ZeroTime, ZeroTime, ZeroTime, [Metric(20 * Second, 10 * Second, 5 * Second)])
    requires now >= 100
    ensures RunFrom(s, SecondLoop(now)).ilms == [Metric(20 * Second, 10 * Second, 5 * Second), Metric(10 * Second, 20 * Second, 0)]
  {
    var e := SecondLoop(now);
    assert e[..|e|] == e;
    SecondLoopBuilds(now, s);
    RunFromSnoc(s, e, 6);
    RunFromSnoc(s, e, 7);
    assert RunFrom(s, e[..8]).current == Metric(10 * Second, 20 * Second, 5 * Second);
    RunFromSnoc(s, e, 8);
    RunFromSnoc(s, e, 9);
    assert RunFrom(s, e[..10]).current == Metric(10 * Second, 20 * Second, 0);
    RunFromSnoc(s, e, 10);
  }

  /** The first six entries of the second sample loop: two builds, timed from the first start. */
  lemma SecondLoopBuilds(now: int, s: State)
    requires s.buildStart == ZeroTime && now >= 100
    ensures RunFrom(s, SecondLoop(now)[..6]) == s.(buildStart := now - 60, current := s.current.(buildTime := 10 * Second))
  {
    var e := SecondLoop(now);
    assert e[..0] == [];
    RunFromSnoc(s, e, 0);
    RunFromSnoc(s, e, 1);
    RunFromSnoc(s, e, 2);
    assert RunFrom(s, e[..3]) == s.(buildStart := now - 60);
    RunFromSnoc(s, e, 3);
    RunFromSnoc(s, e, 4);
    assert RunFrom(s, e[..5]).buildStart == now - 60;
    RunFromSnoc(s, e, 5);
  }
}
