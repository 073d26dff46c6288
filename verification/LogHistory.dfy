/**
 The log history of a Snapshot: two counters, the time range, and one sliding window per outcome.
 Strings are byte strings, as in Go.
 */
module LogHistory {
  import opened Kube
  import opened Terms

  const MAX_LOG_LIMIT := 100
  const MAX_LOG_BYTES := 4096

  datatype Log = Log(start: string, end: string, error: string)

  datatype LogStats = LogStats(
    start: Option<string>, end: Option<string>,
    succeeded: int, failed: int, lastSucceeded: seq<Log>, lastFailed: seq<Log>)

  const NO_STATS := LogStats(None, None, 0, 0, [], [])

  datatype ComponentPhase = ComponentOther(name: string) | ComponentRunning

  datatype Component = Component(phase: ComponentPhase, stats: Option<LogStats>)

  /** A Snapshot: its status components by name. */
  datatype Snapshot = Snapshot(components: map<string, Component>)

  const COMPONENT_LOG := "log"

  predicate Succeeded(info: LogInfo) { info.kind == "success" }

  function Clamp(limit: int): (r: nat)
    ensures r <= MAX_LOG_LIMIT
    ensures 0 <= limit <= MAX_LOG_LIMIT ==> r == limit
    ensures limit > MAX_LOG_LIMIT ==> r == MAX_LOG_LIMIT
    ensures limit < 0 ==> r == 0
  {
    if limit > MAX_LOG_LIMIT then MAX_LOG_LIMIT else if limit < 0 then 0 else limit
  }

  function ClampLog(log: string): string {
    if |log| > MAX_LOG_BYTES then log[..MAX_LOG_BYTES] else log
  }

  /** The entry one update leaves in the history. */
  function Entry(info: LogInfo): Log {
    Log(info.startTime, info.endTime, if Succeeded(info) then "" else ClampLog(info.log))
  }

  /** Append an entry and trim once. */
  function Push(logs: seq<Log>, entry: Log, limit: nat): seq<Log> {
    var all := logs + [entry];
    if |all| > limit then all[1..] else all
  }

  function UpdateStats(st: LogStats, info: LogInfo): LogStats {
    var begun := st.(start := if st.start.None? then Some(info.startTime) else st.start, end := Some(info.endTime));
    if Succeeded(info)
    then begun.(succeeded := st.succeeded + 1,
                lastSucceeded := Push(st.lastSucceeded, Entry(info), Clamp(info.logLimit)))
    else begun.(failed := st.failed + 1,
                lastFailed := Push(st.lastFailed, Entry(info), Clamp(info.logLimit)))
  }

  function StatsOf(s: Snapshot): LogStats {
    if COMPONENT_LOG in s.components && s.components[COMPONENT_LOG].stats.Some?
    then s.components[COMPONENT_LOG].stats.value
    else NO_STATS
  }

  function UpdatedSnapshot(s: Snapshot, info: LogInfo): Snapshot {
    s.(components := s.components[COMPONENT_LOG := Component(ComponentRunning, Some(UpdateStats(StatsOf(s), info)))])
  }

  /** Snapshots are named by namespace and name. */
  datatype SnapshotId = SnapshotId(namespace: string, name: string)

  type Snapshots = map<SnapshotId, Snapshot>

  function UpdatedSnapshots(m: Snapshots, id: SnapshotId, info: LogInfo): Snapshots {
    if id in m then m[id := UpdatedSnapshot(m[id], info)] else m
  }

  class SnapshotStore {
    var snapshots: Snapshots

    constructor (m: Snapshots)
      ensures snapshots == m
    {
      snapshots := m;
    }

    /** trimLogHistory: the latest entries, one fewer exactly when there are more than the limit. */
    method TrimLogHistory(logs: seq<Log>, limit: nat) returns (trimmed: seq<Log>)
      ensures IsSuffix(trimmed, logs)
      ensures |trimmed| == |logs| - (if |logs| > limit then 1 else 0)
    {
      trimmed := logs;
      if |logs| > limit {
        trimmed := logs[1..];
      }
    }

    /** Counters, time range and history of one update. */
    method RecordLog(before: LogStats, info: LogInfo, limit: nat, text: string) returns (st: LogStats)
      requires limit == Clamp(info.logLimit) && text == ClampLog(info.log)
      ensures st == UpdateStats(before, info)
    {
      st := before;
      if st.start.None? {
        st := st.(start := Some(info.startTime));
      }
      st := st.(end := Some(info.endTime));
      var entry := Log(info.startTime, info.endTime, "");
      if info.kind == "success" {
        st := st.(succeeded := st.succeeded + 1);
        var logs := TrimLogHistory(st.lastSucceeded + [entry], limit);
        st := st.(lastSucceeded := logs);
      } else {
        entry := entry.(error := text);
        st := st.(failed := st.failed + 1);
        var logs := TrimLogHistory(st.lastFailed + [entry], limit);
        st := st.(lastFailed := logs);
      }
    }

    /** InitSnapshotComponentsStatus: the log component exists, runs, and has statistics. */
    method InitSnapshotComponentsStatus(id: SnapshotId) returns (found: bool)
      modifies this
      ensures found == (id in old(snapshots))
      ensures !found ==> snapshots == old(snapshots)
      ensures found ==>
                var s := old(snapshots)[id];
                var comp := Component(ComponentRunning, Some(StatsOf(s)));
                snapshots == old(snapshots)[id := s.(components := s.components[COMPONENT_LOG := comp])]
    {
      if id !in snapshots {
        return false;
      }
      var s := snapshots[id];
      var comp := Component(ComponentOther(""), None);
      if COMPONENT_LOG in s.components {
        comp := s.components[COMPONENT_LOG];
      }
      comp := comp.(phase := ComponentRunning);
      if comp.stats.None? {
        comp := comp.(stats := Some(NO_STATS));
      }
      snapshots := snapshots[id := s.(components := s.components[COMPONENT_LOG := comp])];
      return true;
    }

    /** UpdateSnapshot. */
    method UpdateSnapshot(id: SnapshotId, info: LogInfo) returns (found: bool)
      modifies this
      ensures found == (id in old(snapshots))
      ensures snapshots == UpdatedSnapshots(old(snapshots), id, info)
    {
      var limit := info.logLimit;
      if limit > MAX_LOG_LIMIT {
        limit := MAX_LOG_LIMIT;
      }
      if limit < 0 {
        limit := 0;
      }
      var text := info.log;
      if |text| > MAX_LOG_BYTES {
        text := text[..MAX_LOG_BYTES];
      }
      found := InitSnapshotComponentsStatus(id);
      if !found {
        return;
      }
      var s := snapshots[id];
      var st := RecordLog(s.components[COMPONENT_LOG].stats.value, info, limit, text);
      var comp := Component(ComponentRunning, Some(st));
      ghost var before := old(snapshots)[id];
      assert s.components[COMPONENT_LOG := comp] == before.components[COMPONENT_LOG := comp];
      snapshots := snapshots[id := s.(components := s.components[COMPONENT_LOG := comp])];
      assert snapshots == old(snapshots)[id := UpdatedSnapshot(before, info)];
    }
  }

  // ------------------------------------------------------------------ runs

  /** The statistics after a run of updates from none. */
  function StatsAfter(infos: seq<LogInfo>): LogStats {
    if infos == [] then NO_STATS else UpdateStats(StatsAfter(infos[..|infos| - 1]), infos[|infos| - 1])
  }

  /** All entries of one outcome, oldest first. */
  function Events(infos: seq<LogInfo>, ok: bool): seq<Log> {
    if infos == [] then []
    else
      var n := |infos| - 1;
      Events(infos[..n], ok) + (if Succeeded(infos[n]) == ok then [Entry(infos[n])] else [])
  }

  function History(st: LogStats, ok: bool): seq<Log> { if ok then st.lastSucceeded else st.lastFailed }

  /** The largest clamped limit that updates of one outcome used. */
  function LargestLimit(infos: seq<LogInfo>, ok: bool): nat {
    if infos == [] then 0
    else
      var n := |infos| - 1;
      var before := LargestLimit(infos[..n], ok);
      if Succeeded(infos[n]) == ok && Clamp(infos[n].logLimit) > before then Clamp(infos[n].logLimit) else before
  }

  predicate IsSuffix(s: seq<Log>, all: seq<Log>) {
    |s| <= |all| && s == all[|all| - |s|..]
  }

  lemma PushSuffix(s: seq<Log>, all: seq<Log>, e: Log, limit: nat)
    requires IsSuffix(s, all)
    ensures IsSuffix(Push(s, e, limit), all + [e])
    ensures |Push(s, e, limit)| == if |s| < limit then |s| + 1 else |s|
  {
    assert s + [e] == (all + [e])[|all| - |s|..];
  }

  /** Each history is a window on the events of its outcome: their latest, in order, never more than
      the largest limit used (so never more than 100). */
  lemma {:induction false} HistoryIsWindow(infos: seq<LogInfo>, ok: bool)
    ensures IsSuffix(History(StatsAfter(infos), ok), Events(infos, ok))
    ensures |History(StatsAfter(infos), ok)| <= LargestLimit(infos, ok) <= 100
  {
    if infos != [] {
      var n := |infos| - 1;
      HistoryIsWindow(infos[..n], ok);
      if Succeeded(infos[n]) == ok {
        PushSuffix(History(StatsAfter(infos[..n]), ok), Events(infos[..n], ok), Entry(infos[n]),
          Clamp(infos[n].logLimit));
      }
    }
  }

  function Kept(events: seq<Log>, limit: int): nat {
    if |events| < Clamp(limit) then |events| else Clamp(limit)
  }

  /** Under a constant limit the window is exactly the last min(n, limit) events. */
  lemma {:induction false} ConstantLimitWindow(infos: seq<LogInfo>, ok: bool, limit: int)
    requires forall i | 0 <= i < |infos| && Succeeded(infos[i]) == ok :: infos[i].logLimit == limit
    ensures var events := Events(infos, ok);
            History(StatsAfter(infos), ok) == events[|events| - Kept(events, limit)..]
  {
    ConstantLimitLength(infos, ok, limit);
    HistoryIsWindow(infos, ok);
  }

  lemma {:induction false} ConstantLimitLength(infos: seq<LogInfo>, ok: bool, limit: int)
    requires forall i | 0 <= i < |infos| && Succeeded(infos[i]) == ok :: infos[i].logLimit == limit
    ensures |History(StatsAfter(infos), ok)| == Kept(Events(infos, ok), limit)
  {
    if infos != [] {
      ConstantLimitLength(infos[..|infos| - 1], ok, limit);
    }
  }

  /** The entry of an update: its times, and for a failure the first 4096 bytes of its log. */
  predicate IsEntryOf(e: Log, info: LogInfo) {
    && e.start == info.startTime && e.end == info.endTime
    && e.error == if info.kind == "success" then "" else if |info.log| > 4096 then info.log[..4096] else info.log
  }

  /** An update appends the entry to the history of its outcome, and to nothing else. It is left out only
      where that history is empty and the limit not positive. */
  lemma UpdateWrites(st: LogStats, info: LogInfo)
    ensures var st' := UpdateStats(st, info);
            var (before, after) := if info.kind == "success" then (st.lastSucceeded, st'.lastSucceeded)
                                   else (st.lastFailed, st'.lastFailed);
            && (info.logLimit > 0 || before != [] ==> after != [] && IsEntryOf(after[|after| - 1], info))
            && (info.logLimit <= 0 && before == [] ==> after == [])
            && (if info.kind == "success"
                then st' == st.(succeeded := st.succeeded
                  + 1, lastSucceeded := after, start := st'.start, end := st'.end)
                else st' == st.(failed := st.failed + 1, lastFailed := after, start := st'.start, end := st'.end))
            && st'.end == Some(info.endTime) && (st.start.Some? ==> st'.start == st.start)
            && (st.start.None? ==> st'.start == Some(info.startTime))
  {
  }

  /** Of all Snapshots an update touches the named one, and in that the component "log", which then runs. */
  lemma UpdateTouches(m: Snapshots, id: SnapshotId, info: LogInfo)
    ensures var m' := UpdatedSnapshots(m, id, info);
            && m'.Keys == m.Keys && (forall k | k in m && k != id :: m'[k] == m[k])
            && (id in m ==>
                  && m'[id].components.Keys == m[id].components.Keys + {"log"}
                  && (forall c | c in m[id].components && c != "log" :: m'[id].components[c] == m[id].components[c])
                  && m'[id].components["log"].phase == ComponentRunning && m'[id].components["log"].stats.Some?
                  && (var had := if "log" in m[id].components then m[id].components["log"].stats else None;
                      var st := if had.Some? then had.value else LogStats(None, None, 0, 0, [], []);
                      m'[id].components["log"].stats.value == UpdateStats(st, info)))
  {
  }

  /** One trim an update: the history of the outcome grows up to the limit and never shrinks, so it is
      within its limit after an update exactly when it was so before. */
  lemma WithinLimitIff(st: LogStats, info: LogInfo)
    ensures var limit, ok := Clamp(info.logLimit), Succeeded(info);
            var before, after := |History(st, ok)|, |History(UpdateStats(st, info), ok)|;
            && after == (if before < limit then before + 1 else before)
            && (after <= limit <==> before <= limit)
            && History(UpdateStats(st, info), !ok) == History(st, !ok)
  {
    PushSuffix(History(st, Succeeded(info)), History(st, Succeeded(info)), Entry(info), Clamp(info.logLimit));
  }

  /** So a lowered limit never shortens a history. */
  lemma {:induction false} NeverShrinks(infos: seq<LogInfo>, n: nat, ok: bool)
    requires n <= |infos|
    ensures |History(StatsAfter(infos[..n]), ok)| <= |History(StatsAfter(infos), ok)|
  {
    var m := |infos| - 1;
    if n == |infos| {
      assert infos[..n] == infos;
    } else {
      assert infos[..m][..n] == infos[..n];
      NeverShrinks(infos[..m], n, ok);
      WithinLimitIff(StatsAfter(infos[..m]), infos[m]);
    }
  }

  /** The totals count the events of each outcome and together all updates; the time range starts
      with the first update and ends with the last. */
  lemma {:induction false} TotalsCountUpdates(infos: seq<LogInfo>)
    ensures var st := StatsAfter(infos);
            && st.succeeded == |Events(infos, true)| && st.failed == |Events(infos, false)|
            && st.succeeded + st.failed == |infos|
            && st.start == (if infos == [] then None else Some(infos[0].startTime))
            && st.end == (if infos == [] then None else Some(infos[|infos| - 1].endTime))
  {
    if infos != [] {
      TotalsCountUpdates(infos[..|infos| - 1]);
    }
  }
}
