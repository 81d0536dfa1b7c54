/** Service liveness (utils/heartbeat.py): five stage counters with the time
    of each stage's last event, and a snapshot whose status turns STALE when
    no raw data arrived for more than 10 seconds. */
module Liveness {
  import opened Features

  /** Seconds without raw data after which the service reports STALE. */
  const StaleAfter: real := 10.0

  /** `int(x)`: truncation toward zero. */
  function Truncate(x: real): (n: int)
    ensures x >= 0.0 ==> n as real <= x < n as real + 1.0
    ensures x < 0.0 ==> n as real - 1.0 < x <= n as real
  {
    if x >= 0.0 then x.Floor else -((-x).Floor)
  }

  /** The counters after the `mark_*` of stage `i` at time `now`: that
      counter one higher and its time `now`. */
  function Marked(c: seq<(nat, Option<real>)>, i: nat, now: real): seq<(nat, Option<real>)>
    requires i < |c|
  {
    c[i := (c[i].0 + 1, Some(now))]
  }

  function OptionalTime(t: Option<real>): Json {
    if t.Some? then JNum(t.value) else JNull
  }

  class Heartbeat {
    const serviceName: string
    const startTime: real
    var rawRxCount: nat
    var windowReadyCount: nat
    var l1ExecCount: nat
    var earlyFaultExecCount: nat
    var l2ExecCount: nat
    var lastRawRx: Option<real>
    var lastWindowReady: Option<real>
    var lastL1Exec: Option<real>
    var lastEarlyFault: Option<real>
    var lastL2Exec: Option<real>

    /** All five counters with their last-event times, in declaration order. */
    function Counters(): seq<(nat, Option<real>)>
      reads this
    {
      [(rawRxCount, lastRawRx), (windowReadyCount, lastWindowReady), (l1ExecCount, lastL1Exec),
       (earlyFaultExecCount, lastEarlyFault), (l2ExecCount, lastL2Exec)]
    }

    constructor (serviceName: string, now: real)
      ensures this.serviceName == serviceName && startTime == now
      ensures forall i :: 0 <= i < 5 ==> Counters()[i] == (0, None)
    {
      this.serviceName := serviceName;
      startTime := now;
      rawRxCount, windowReadyCount, l1ExecCount, earlyFaultExecCount, l2ExecCount := 0, 0, 0, 0, 0;
      lastRawRx, lastWindowReady, lastL1Exec, lastEarlyFault, lastL2Exec := None, None, None, None, None;
    }

    /** `mark_raw_rx`: this counter and its time only. */
    method MarkRawRx(now: real)
      modifies this
      ensures Counters() == Marked(old(Counters()), 0, now)
    {
      rawRxCount := rawRxCount + 1;
      lastRawRx := Some(now);
    }

    /** `mark_window_ready`. */
    method MarkWindowReady(now: real)
      modifies this
      ensures Counters() == Marked(old(Counters()), 1, now)
    {
      windowReadyCount := windowReadyCount + 1;
      lastWindowReady := Some(now);
    }

    /** `mark_l1_exec`. */
    method MarkL1Exec(now: real)
      modifies this
      ensures Counters() == Marked(old(Counters()), 2, now)
    {
      l1ExecCount := l1ExecCount + 1;
      lastL1Exec := Some(now);
    }

    /** `mark_early_fault_exec`. */
    method MarkEarlyFaultExec(now: real)
      modifies this
      ensures Counters() == Marked(old(Counters()), 3, now)
    {
      earlyFaultExecCount := earlyFaultExecCount + 1;
      lastEarlyFault := Some(now);
    }

    /** `mark_l2_exec`. */
    method MarkL2Exec(now: real)
      modifies this
      ensures Counters() == Marked(old(Counters()), 4, now)
    {
      l2ExecCount := l2ExecCount + 1;
      lastL2Exec := Some(now);
    }

    /** The status `snapshot` reports at time `now`. */
    function Status(now: real): (s: string)
      reads this
      ensures s == "STALE" <==> lastRawRx.Some? && now - lastRawRx.value > StaleAfter
      ensures s == "STALE" || s == "OK"
    {
      if lastRawRx.Some? && now - lastRawRx.value > StaleAfter then "STALE" else "OK"
    }

    /** `snapshot` at time `now`: the counters and times as stored, the status
        and the whole seconds of uptime. */
    function Snapshot(now: real): Json
      reads this
    {
      JObj([
        ("service", JStr(serviceName)),
        ("status", JStr(Status(now))),
        ("uptime_sec", JInt(Truncate(now - startTime))),
        ("raw_rx_count", JInt(rawRxCount)),
        ("window_ready_count", JInt(windowReadyCount)),
        ("l1_exec_count", JInt(l1ExecCount)),
        ("early_fault_exec_count", JInt(earlyFaultExecCount)),
        ("l2_exec_count", JInt(l2ExecCount)),
        ("last_raw_rx", OptionalTime(lastRawRx)),
        ("last_window_ready", OptionalTime(lastWindowReady)),
        ("last_l1_exec", OptionalTime(lastL1Exec)),
        ("last_early_fault", OptionalTime(lastEarlyFault)),
        ("last_l2_exec", OptionalTime(lastL2Exec))
      ])
    }
  }

  /** `snapshot` reports the status, the whole seconds of uptime and each
      stage's counter and last-event time as stored. */
  lemma SnapshotReportsCounters(h: Heartbeat, now: real)
    ensures var j := h.Snapshot(now);
      && j.JObj? && |j.fields| == 13
      && j.fields[1] == ("status", JStr(h.Status(now)))
      && j.fields[2] == ("uptime_sec", JInt(Truncate(now - h.startTime)))
      && forall i :: 0 <= i < 5 ==>
           j.fields[3 + i].1 == JInt(h.Counters()[i].0) && j.fields[8 + i].1 == OptionalTime(h.Counters()[i].1)
  {
  }

  /** Staleness persists: once STALE, the status stays STALE as time passes
      until raw data is marked again. */
  lemma StaleStaysStale(h: Heartbeat, now: real, later: real)
    requires now <= later && h.Status(now) == "STALE"
    ensures h.Status(later) == "STALE"
  {
  }

  /** A service that never received raw data reports OK at any time. */
  lemma NeverStaleWithoutData(h: Heartbeat, now: real)
    requires h.lastRawRx.None?
    ensures h.Status(now) == "OK"
  {
  }
}
