/**
 What the two recording modes leave in a new file. The incidents-only file is the full file with
 some (pod, snapshot) pairs stripped.
 */
module Runs {
  import opened Model
  import opened FileView
  import opened Pieces
  import opened Snapshotter
  import Store

  // ---- The meaning of a retained capture ----

  /** Row j of capture i keeps its blob in an incidents-only recording. */
  predicate KeptOnline(caps: seq<Capture>, i: nat, j: nat)
    requires i < |caps| && j < |caps[i].rows|
  {
    KeepsRow(caps[i].rows, j, WindowAt(caps, i), SeenBefore(caps, i))
  }

  /** An earlier capture, or an earlier row of the same capture, shows the pod. */
  ghost predicate ShownEarlier(caps: seq<Capture>, i: nat, j: nat, key: string)
    requires i < |caps| && j <= |caps[i].rows|
  {
    || (exists i', j' :: 0 <= i' < i && 0 <= j' < |caps[i'].rows| && caps[i'].rows[j'].kind == PODS && PodKey(caps[i'].rows[j']) == key)
    || (exists j' :: 0 <= j' < j && caps[i].rows[j'].kind == PODS && PodKey(caps[i].rows[j']) == key)
  }

  /** Some row of capture i shows the pod unhealthy. */
  ghost predicate ShownUnhealthy(caps: seq<Capture>, i: int, key: string) {
    0 <= i < |caps| && exists j :: 0 <= j < |caps[i].rows| && RowUnhealthy(caps[i].rows[j]) && PodKey(caps[i].rows[j]) == key
  }

  lemma {:induction false} PodKeysInMembers(rows: seq<Row>, n: nat, key: string)
    requires n <= |rows|
    ensures key in PodKeysIn(rows, n) <==> exists j :: 0 <= j < n && rows[j].kind == PODS && PodKey(rows[j]) == key
  {
    if n > 0 {
      PodKeysInMembers(rows, n - 1, key);
    }
  }

  lemma {:induction false} SeenBeforeMembers(caps: seq<Capture>, i: nat, key: string)
    requires i <= |caps|
    ensures key in SeenBefore(caps, i) <==>
            exists i', j' :: 0 <= i' < i && 0 <= j' < |caps[i'].rows| && caps[i'].rows[j'].kind == PODS && PodKey(caps[i'].rows[j']) == key
  {
    if i > 0 {
      SeenBeforeMembers(caps, i - 1, key);
      PodKeysInMembers(caps[i - 1].rows, |caps[i - 1].rows|, key);
    }
  }

  lemma UnhealthyAtMembers(caps: seq<Capture>, i: int, key: string)
    ensures key in UnhealthyAt(caps, i) <==> ShownUnhealthy(caps, i, key)
  {
    if 0 <= i < |caps| {
      var rows := caps[i].rows;
      if key in UnhealthyIn(rows) {
        var r :| r in rows && RowUnhealthy(r) && PodKey(r) == key;
        var j :| 0 <= j < |rows| && rows[j] == r;
        assert ShownUnhealthy(caps, i, key);
      }
    }
  }

  /** The retention rule, spelled out: a pod row keeps its blob exactly when the pod is unhealthy one
      capture before, now, or one capture after, or was never shown before. */
  lemma KeptOnlineMeans(caps: seq<Capture>, i: nat, j: nat)
    requires i < |caps| && j < |caps[i].rows| && caps[i].rows[j].kind == PODS
    ensures var key := PodKey(caps[i].rows[j]);
            KeptOnline(caps, i, j) <==>
              ShownUnhealthy(caps, i - 1, key) || ShownUnhealthy(caps, i, key) || ShownUnhealthy(caps, i + 1, key) ||
              !ShownEarlier(caps, i, j, key)
  {
    var key := PodKey(caps[i].rows[j]);
    UnhealthyAtMembers(caps, i - 1, key);
    UnhealthyAtMembers(caps, i, key);
    UnhealthyAtMembers(caps, i + 1, key);
    SeenBeforeMembers(caps, i, key);
    PodKeysInMembers(caps[i].rows, j, key);
  }

  function Verdict(rows: seq<Row>, window: set<string>, sentinel: set<string>, j: nat): Row
    requires j < |rows|
  {
    if KeepsRow(rows, j, window, sentinel) then rows[j] else rows[j].(shrunk := true)
  }

  lemma {:induction false} PassRows(rows: seq<Row>, window: set<string>, sentinel: set<string>, n: nat)
    requires n <= |rows|
    ensures forall j :: 0 <= j < n ==> PassOver(rows, window, sentinel, n).rows[j] == Verdict(rows, window, sentinel, j)
  {
    if n > 0 {
      var m: nat := n - 1;
      PassRows(rows, window, sentinel, m);
      assert PassOver(rows, window, sentinel, n).rows == PassOver(rows, window, sentinel, m).rows + [Verdict(rows, window, sentinel, m)];
    }
  }

  lemma {:induction false} PassNames(rows: seq<Row>, window: set<string>, sentinel: set<string>, n: nat)
    requires n <= |rows|
    ensures forall name :: name in PassOver(rows, window, sentinel, n).names <==>
              exists j :: 0 <= j < n && rows[j].kind == PODS && KeepsRow(rows, j, window, sentinel) && JoinKey(rows[j].ns, rows[j].name) == name
  {
    if n > 0 {
      PassNames(rows, window, sentinel, n - 1);
    }
  }

  /** The first n rows that lose their blob. */
  function FlaggedAmong(rows: seq<Row>, window: set<string>, sentinel: set<string>, n: nat): set<nat>
    requires n <= |rows|
  {
    set j: nat | j < n && !KeepsRow(rows, j, window, sentinel)
  }

  lemma FlaggedOneMore(rows: seq<Row>, window: set<string>, sentinel: set<string>, m: nat, n: nat)
    requires m + 1 == n <= |rows|
    ensures |FlaggedAmong(rows, window, sentinel, n)| ==
            |FlaggedAmong(rows, window, sentinel, m)| + (if KeepsRow(rows, m, window, sentinel) then 0 else 1)
  {
    assert FlaggedAmong(rows, window, sentinel, n) ==
           FlaggedAmong(rows, window, sentinel, m) + (if KeepsRow(rows, m, window, sentinel) then {} else {m});
    assert m !in FlaggedAmong(rows, window, sentinel, m);
  }

  lemma {:induction false} PassCount(rows: seq<Row>, window: set<string>, sentinel: set<string>, n: nat)
    requires n <= |rows|
    ensures PassOver(rows, window, sentinel, n).stripped == |FlaggedAmong(rows, window, sentinel, n)|
  {
    if n == 0 {
      assert FlaggedAmong(rows, window, sentinel, n) == {};
    } else {
      var m: nat := n - 1;
      PassCount(rows, window, sentinel, m);
      FlaggedOneMore(rows, window, sentinel, m, n);
    }
  }

  lemma {:induction false} LogsOfMembers(logs: seq<PodLog>, names: set<string>)
    ensures forall l :: l in LogsOf(logs, names) <==> l in logs && JoinKey(l.ns, l.pod) in names
  {
    if logs != [] {
      LogsOfMembers(Front(logs), names);
      assert logs == Front(logs) + [Last(logs)];
    }
  }

  /** What is submitted for capture i: rows outside their window are flagged and nothing else changes,
      a log stays exactly when a pod row of its name keeps its blob, and the count is that of the flags. */
  lemma SubmissionMeans(caps: seq<Capture>, i: nat)
    requires i < |caps|
    ensures var c, s := caps[i], SubmissionOf(caps, i);
            && s.capture == c.(rows := s.capture.rows, podLogs := s.capture.podLogs)
            && |s.capture.rows| == |c.rows|
            && (forall j :: 0 <= j < |c.rows| ==>
                  s.capture.rows[j] == if KeptOnline(caps, i, j) then c.rows[j] else c.rows[j].(shrunk := true))
            && (forall l :: l in s.capture.podLogs <==>
                  l in c.podLogs && exists j :: 0 <= j < |c.rows| && c.rows[j].kind == PODS && KeptOnline(caps, i, j) &&
                                                JoinKey(c.rows[j].ns, c.rows[j].name) == JoinKey(l.ns, l.pod))
            && s.podsShrunk == |set j: nat | j < |c.rows| && !KeptOnline(caps, i, j)|
  {
    var rows, window, sentinel := caps[i].rows, WindowAt(caps, i), SeenBefore(caps, i);
    PassRows(rows, window, sentinel, |rows|);
    PassNames(rows, window, sentinel, |rows|);
    PassCount(rows, window, sentinel, |rows|);
    LogsOfMembers(caps[i].podLogs, PassOver(rows, window, sentinel, |rows|).names);
    assert (set j: nat | j < |rows| && !KeptOnline(caps, i, j)) == FlaggedAmong(rows, window, sentinel, |rows|);
  }

  // ---- Recorded files ----

  /** What a capture run hands the recorder: keys are unique, nothing is stripped yet, and every log
      belongs to a captured pod. Namespaces hold no slash. */
  ghost predicate GoodCapture(c: Capture) {
    && WellKeyed(c)
    && (forall r :: r in c.rows ==> !r.shrunk && '/' !in r.ns)
    && (forall l :: l in c.podLogs ==> '/' !in l.ns && exists r :: r in c.rows && r.kind == PODS && r.ns == l.ns && r.name == l.pod)
  }

  ghost predicate GoodRun(caps: seq<Capture>) {
    forall i :: 0 <= i < |caps| ==> GoodCapture(caps[i])
  }

  /** The pairs that the incidents-only recorder strips from capture i, which becomes snapshot id. */
  function StrippedAt(caps: seq<Capture>, i: nat, id: nat): set<ShrinkTarget>
    requires i < |caps|
  {
    set j | 0 <= j < |caps[i].rows| && !KeptOnline(caps, i, j) :: ShrinkTarget(id, caps[i].rows[j].ns, caps[i].rows[j].name)
  }

  /** Those of the first n captures of a run whose file holds `before` snapshots already. */
  function StrippedOnline(caps: seq<Capture>, n: nat, before: nat): set<ShrinkTarget>
    requires n <= |caps|
  {
    if n == 0 then {} else StrippedOnline(caps, n - 1, before) + StrippedAt(caps, n - 1, before + n)
  }

  ghost function FullFile(caps: seq<Capture>): File {
    WrittenOnto(EmptyFile(), caps)
  }

  ghost function IncidentsOnlyFile(caps: seq<Capture>): File {
    WrittenOnto(EmptyFile(), RetainedUpto(caps, |caps|))
  }

  // ---- One capture written ----

  lemma RowTable(id: nat, rows: seq<Row>)
    requires UniqueKeys(RowEntries(id, rows))
    ensures forall j :: 0 <= j < |rows| ==>
              RowKey(id, rows[j]) in Table(RowEntries(id, rows)) && Table(RowEntries(id, rows))[RowKey(id, rows[j])] == ResourceOf(rows[j])
    ensures forall k :: k in Table(RowEntries(id, rows)) ==> exists j :: 0 <= j < |rows| && RowKey(id, rows[j]) == k
  {
    var entries := RowEntries(id, rows);
    forall j | 0 <= j < |rows|
      ensures RowKey(id, rows[j]) in Table(entries) && Table(entries)[RowKey(id, rows[j])] == ResourceOf(rows[j])
    {
      TableLookup(entries, j);
    }
    forall k | k in Table(entries)
      ensures exists j :: 0 <= j < |rows| && RowKey(id, rows[j]) == k
    {
      TableKeys(entries, k);
    }
  }

  lemma LogTable(id: nat, logs: seq<PodLog>)
    requires UniqueKeys(LogEntries(id, logs))
    ensures forall l :: l in logs ==>
              LogKey(id, l.ns, l.pod) in Table(LogEntries(id, logs)) && Table(LogEntries(id, logs))[LogKey(id, l.ns, l.pod)] == LogOf(l)
    ensures forall k :: k in Table(LogEntries(id, logs)) ==> exists l :: l in logs && LogKey(id, l.ns, l.pod) == k
  {
    var entries := LogEntries(id, logs);
    forall l | l in logs
      ensures LogKey(id, l.ns, l.pod) in Table(entries) && Table(entries)[LogKey(id, l.ns, l.pod)] == LogOf(l)
    {
      var j :| 0 <= j < |logs| && logs[j] == l;
      TableLookup(entries, j);
    }
    forall k | k in Table(entries)
      ensures exists l :: l in logs && LogKey(id, l.ns, l.pod) == k
    {
      TableKeys(entries, k);
      var j :| 0 <= j < |entries| && entries[j].0 == k;
      assert logs[j] in logs;
    }
  }

  /** Filtering keeps keys unique. */
  lemma {:induction false} FilteredLogsUnique(id: nat, logs: seq<PodLog>, names: set<string>)
    requires UniqueKeys(LogEntries(id, logs))
    ensures UniqueKeys(LogEntries(id, LogsOf(logs, names)))
  {
    if logs != [] {
      var front := Front(logs);
      assert UniqueKeys(LogEntries(id, front)) by {
        forall i, j | 0 <= i < j < |front|
          ensures LogEntries(id, front)[i].0 != LogEntries(id, front)[j].0
        {
          assert LogEntries(id, logs)[i].0 != LogEntries(id, logs)[j].0;
        }
      }
      FilteredLogsUnique(id, front, names);
      var kept := LogsOf(front, names);
      LogsOfMembers(front, names);
      forall i | 0 <= i < |kept|
        ensures LogKey(id, kept[i].ns, kept[i].pod) != LogKey(id, Last(logs).ns, Last(logs).pod)
      {
        assert kept[i] in front;
        var m :| 0 <= m < |front| && front[m] == kept[i];
        assert LogEntries(id, logs)[m].0 != LogEntries(id, logs)[|logs| - 1].0;
      }
    }
  }

  /** The retained form of a capture that strips the rows named in `cut`. */
  ghost predicate CutsDown(c: Capture, c': Capture, id: nat, cut: set<ShrinkTarget>) {
    && c'.ts == c.ts && c'.events == c.events && c'.kindStatus == c.kindStatus && c'.kindErrs == c.kindErrs
    && |c'.rows| == |c.rows|
    && (forall j :: 0 <= j < |c.rows| ==>
          c'.rows[j] == if c.rows[j].kind == PODS && ShrinkTarget(id, c.rows[j].ns, c.rows[j].name) in cut
                        then c.rows[j].(shrunk := true) else c.rows[j])
    && (forall l :: l in c'.podLogs <==> l in c.podLogs && ShrinkTarget(id, l.ns, l.pod) !in cut)
    && UniqueKeys(LogEntries(id, c'.podLogs))
    && (forall t :: t in cut ==> t.snap == id)
  }

  lemma CutRows(c: Capture, c': Capture, id: nat, cut: set<ShrinkTarget>)
    requires CutsDown(c, c', id, cut) && UniqueKeys(RowEntries(id, c.rows))
    requires forall r :: r in c.rows ==> !r.shrunk
    ensures UniqueKeys(RowEntries(id, c'.rows))
    ensures Table(RowEntries(id, c'.rows)) == StripRows(Table(RowEntries(id, c.rows)), cut)
  {
    var t, t' := Table(RowEntries(id, c.rows)), Table(RowEntries(id, c'.rows));
    SameRowKeys(c.rows, c'.rows, id);
    RowTable(id, c.rows);
    RowTable(id, c'.rows);
    forall k | k in t
      ensures t'[k] == if Strips(cut, k, t[k]) then Emptied(t[k]) else t[k]
    {
      var j :| 0 <= j < |c.rows| && RowKey(id, c.rows[j]) == k;
      assert RowKey(id, c'.rows[j]) == k;
      CutRow(c.rows[j], c'.rows[j], id, cut);
    }
    RowsStripped(t, t', cut);
  }

  lemma RowsStripped(t: map<ResKey, Resource>, t': map<ResKey, Resource>, cut: set<ShrinkTarget>)
    requires t'.Keys == t.Keys
    requires forall k :: k in t ==> t'[k] == if Strips(cut, k, t[k]) then Emptied(t[k]) else t[k]
    ensures t' == StripRows(t, cut)
  {
  }

  lemma SameRowKeys(rows: seq<Row>, rows': seq<Row>, id: nat)
    requires |rows'| == |rows| && UniqueKeys(RowEntries(id, rows))
    requires forall j :: 0 <= j < |rows| ==> RowKey(id, rows'[j]) == RowKey(id, rows[j])
    ensures UniqueKeys(RowEntries(id, rows'))
    ensures Table(RowEntries(id, rows')).Keys == Table(RowEntries(id, rows)).Keys
  {
    var e, e' := RowEntries(id, rows), RowEntries(id, rows');
    forall i, j | 0 <= i < j < |e'|
      ensures e'[i].0 != e'[j].0
    {
      assert e[i].0 != e[j].0;
    }
    forall k
      ensures k in Table(e') <==> k in Table(e)
    {
      TableKeys(e, k);
      TableKeys(e', k);
      if i :| 0 <= i < |e| && e[i].0 == k {
        assert e'[i].0 == k;
      }
      if i :| 0 <= i < |e'| && e'[i].0 == k {
        assert e[i].0 == k;
      }
    }
  }

  lemma CutRow(r: Row, r': Row, id: nat, cut: set<ShrinkTarget>)
    requires !r.shrunk
    requires r' == if r.kind == PODS && ShrinkTarget(id, r.ns, r.name) in cut then r.(shrunk := true) else r
    ensures ResourceOf(r') == if Strips(cut, RowKey(id, r), ResourceOf(r)) then Emptied(ResourceOf(r)) else ResourceOf(r)
  {
  }

  lemma CutLogs(c: Capture, c': Capture, id: nat, cut: set<ShrinkTarget>)
    requires CutsDown(c, c', id, cut) && UniqueKeys(LogEntries(id, c.podLogs))
    ensures Table(LogEntries(id, c'.podLogs)) == StripLogs(Table(LogEntries(id, c.podLogs)), cut)
  {
    LogTable(id, c.podLogs);
    LogTable(id, c'.podLogs);
    var t, t' := Table(LogEntries(id, c.podLogs)), Table(LogEntries(id, c'.podLogs));
    forall k | k in t'
      ensures k in t && LogTarget(k) !in cut && t'[k] == t[k]
    {
      var l :| l in c'.podLogs && LogKey(id, l.ns, l.pod) == k;
    }
    forall k | k in t && LogTarget(k) !in cut
      ensures k in t'
    {
      var l :| l in c.podLogs && LogKey(id, l.ns, l.pod) == k;
    }
  }

  /** Writing the retained form onto a stripped file is stripping the file with the full form written. */
  lemma WriteThenStrip(f: File, done: set<ShrinkTarget>, c: Capture, c': Capture, cut: set<ShrinkTarget>)
    requires CutsDown(c, c', f.nextSnap, cut) && WellKeyed(c)
    requires forall r :: r in c.rows ==> !r.shrunk
    requires forall k :: k in f.resources ==> k.snap < f.nextSnap
    requires forall k :: k in f.logs ==> k.snap < f.nextSnap
    requires forall t :: t in done ==> t.snap < f.nextSnap
    ensures Written(Strip(f, done), c') == Strip(Written(f, c), done + cut)
  {
    CutAddition(c, c', f.nextSnap, cut);
    AddCaptureThenStrip(f, done, c, cut);
  }

  lemma AddCaptureThenStrip(f: File, done: set<ShrinkTarget>, c: Capture, cut: set<ShrinkTarget>)
    requires (forall k :: k in f.resources ==> k.snap < f.nextSnap) && (forall k :: k in f.logs ==> k.snap < f.nextSnap)
    requires (forall t :: t in done ==> t.snap < f.nextSnap) && (forall t :: t in cut ==> t.snap == f.nextSnap)
    ensures Added(Strip(f, done), StrippedAddition(AdditionOf(f.nextSnap, c), cut)) ==
            Strip(Added(f, AdditionOf(f.nextSnap, c)), done + cut)
  {
    AdditionHasId(f.nextSnap, c);
    AddThenStrip(f, done, AdditionOf(f.nextSnap, c), cut);
  }

  function StrippedAddition(a: Addition, cut: set<ShrinkTarget>): Addition {
    a.(rows := StripRows(a.rows, cut), logs := StripLogs(a.logs, cut))
  }

  lemma CutAddition(c: Capture, c': Capture, id: nat, cut: set<ShrinkTarget>)
    requires CutsDown(c, c', id, cut) && WellKeyed(c)
    requires forall r :: r in c.rows ==> !r.shrunk
    ensures WellKeyed(c') && AdditionOf(id, c') == StrippedAddition(AdditionOf(id, c), cut)
  {
    KeysIndependentOfId(c, id);
    CutRows(c, c', id, cut);
    CutLogs(c, c', id, cut);
    KeysIndependentOfId(c', id);
    SameStatuses(c, c', id);
  }

  lemma SameStatuses(c: Capture, c': Capture, id: nat)
    requires c'.kindStatus == c.kindStatus && c'.kindErrs == c.kindErrs
    ensures StatusTable(id, c') == StatusTable(id, c)
  {
  }

  lemma AddThenStrip(f: File, done: set<ShrinkTarget>, a: Addition, cut: set<ShrinkTarget>)
    requires (forall k :: k in f.resources ==> k.snap < f.nextSnap) && (forall k :: k in f.logs ==> k.snap < f.nextSnap)
    requires (forall k :: k in a.rows ==> k.snap == f.nextSnap) && (forall k :: k in a.logs ==> k.snap == f.nextSnap)
    requires (forall t :: t in done ==> t.snap < f.nextSnap) && (forall t :: t in cut ==> t.snap == f.nextSnap)
    ensures Added(Strip(f, done), StrippedAddition(a, cut)) == Strip(Added(f, a), done + cut)
  {
    StripsApart(f.resources, a.rows, done, cut, f.nextSnap);
    LogStripsApart(f.logs, a.logs, done, cut, f.nextSnap);
  }

  /** Old rows and new rows are stripped by their own targets. */
  lemma StripsApart(rows: map<ResKey, Resource>, more: map<ResKey, Resource>, done: set<ShrinkTarget>, cut: set<ShrinkTarget>, next: nat)
    requires (forall k :: k in rows ==> k.snap < next) && (forall k :: k in more ==> k.snap == next)
    requires (forall t :: t in done ==> t.snap < next) && (forall t :: t in cut ==> t.snap == next)
    ensures StripRows(rows, done) + StripRows(more, cut) == StripRows(rows + more, done + cut)
  {
  }

  lemma LogStripsApart(logs: map<LogKey, LogEntry>, more: map<LogKey, LogEntry>, done: set<ShrinkTarget>, cut: set<ShrinkTarget>, next: nat)
    requires (forall k :: k in logs ==> k.snap < next) && (forall k :: k in more ==> k.snap == next)
    requires (forall t :: t in done ==> t.snap < next) && (forall t :: t in cut ==> t.snap == next)
    ensures StripLogs(logs, done) + StripLogs(more, cut) == StripLogs(logs + more, done + cut)
  {
  }

  // ---- A whole run written ----

  lemma RowsAreDistinct(c: Capture, j: nat, k: nat)
    requires WellKeyed(c) && j < |c.rows| && k < |c.rows|
    requires c.rows[j].kind == c.rows[k].kind && c.rows[j].ns == c.rows[k].ns && c.rows[j].name == c.rows[k].name
    ensures j == k
  {
    var e := RowEntries(0, c.rows);
    assert e[j].0 == e[k].0;
  }

  lemma RowKeysDiffer(c: Capture, j: nat, k: nat)
    requires WellKeyed(c) && j < |c.rows| && k < |c.rows| && j != k
    ensures RowKey(0, c.rows[j]) != RowKey(0, c.rows[k])
  {
    var e := RowEntries(0, c.rows);
    assert if j < k then e[j].0 != e[k].0 else e[k].0 != e[j].0;
  }

  lemma StrippedAtMeans(caps: seq<Capture>, i: nat, id: nat, j: nat)
    requires GoodRun(caps) && i < |caps| && j < |caps[i].rows| && caps[i].rows[j].kind == PODS
    ensures ShrinkTarget(id, caps[i].rows[j].ns, caps[i].rows[j].name) in StrippedAt(caps, i, id) <==> !KeptOnline(caps, i, j)
  {
    var r := caps[i].rows[j];
    if ShrinkTarget(id, r.ns, r.name) in StrippedAt(caps, i, id) {
      var j' :| 0 <= j' < |caps[i].rows| && !KeptOnline(caps, i, j') &&
                ShrinkTarget(id, caps[i].rows[j'].ns, caps[i].rows[j'].name) == ShrinkTarget(id, r.ns, r.name);
      RowsAreDistinct(caps[i], j, j');
    }
  }

  lemma RowOfLog(c: Capture, l: PodLog) returns (j: nat)
    requires GoodCapture(c) && l in c.podLogs
    ensures j < |c.rows| && c.rows[j].kind == PODS && c.rows[j].ns == l.ns && c.rows[j].name == l.pod
    ensures '/' !in l.ns && '/' !in c.rows[j].ns
  {
    var r :| r in c.rows && r.kind == PODS && r.ns == l.ns && r.name == l.pod;
    j :| 0 <= j < |c.rows| && c.rows[j] == r;
  }

  lemma LogKeptMeans(caps: seq<Capture>, i: nat, id: nat, l: PodLog)
    requires GoodRun(caps) && i < |caps| && l in caps[i].podLogs
    ensures l in SubmissionOf(caps, i).capture.podLogs <==> ShrinkTarget(id, l.ns, l.pod) !in StrippedAt(caps, i, id)
  {
    var rows := caps[i].rows;
    var j := RowOfLog(caps[i], l);
    SubmissionMeans(caps, i);
    StrippedAtMeans(caps, i, id, j);
    forall m | 0 <= m < |rows| && rows[m].kind == PODS && JoinKey(rows[m].ns, rows[m].name) == JoinKey(l.ns, l.pod)
      ensures m == j
    {
      assert rows[m] in rows;
      JoinKeyInjective(rows[m].ns, rows[m].name, l.ns, l.pod);
      RowsAreDistinct(caps[i], j, m);
    }
  }

  lemma RetainedCutsDown(caps: seq<Capture>, i: nat, id: nat)
    requires GoodRun(caps) && i < |caps|
    ensures CutsDown(caps[i], Retained(caps, i), id, StrippedAt(caps, i, id))
  {
    var c, c' := caps[i], Retained(caps, i);
    SubmissionMeans(caps, i);
    forall j | 0 <= j < |c.rows| && c.rows[j].kind == PODS
      ensures ShrinkTarget(id, c.rows[j].ns, c.rows[j].name) in StrippedAt(caps, i, id) <==> !KeptOnline(caps, i, j)
    {
      StrippedAtMeans(caps, i, id, j);
    }
    forall l | l in c.podLogs
      ensures l in c'.podLogs <==> ShrinkTarget(id, l.ns, l.pod) !in StrippedAt(caps, i, id)
    {
      LogKeptMeans(caps, i, id, l);
    }
    KeysIndependentOfId(c, id);
    FilteredLogsUnique(id, c.podLogs, PassOver(c.rows, WindowAt(caps, i), SeenBefore(caps, i), |c.rows|).names);
  }

  /** A file with n snapshots, the next one to be n + 1. */
  ghost predicate HoldsSnapshots(f: File, n: nat) {
    IdsHandedOut(f) && f.nextSnap == n + 1
  }

  lemma WrittenHolds(f: File, c: Capture, n: nat)
    requires HoldsSnapshots(f, n) && WellKeyed(c)
    ensures HoldsSnapshots(Written(f, c), n + 1)
  {
    WrittenMeans(f, c);
  }

  lemma {:induction false} RunHolds(f: File, caps: seq<Capture>, before: nat)
    requires GoodRun(caps) && HoldsSnapshots(f, before)
    ensures HoldsSnapshots(WrittenOnto(f, caps), before + |caps|)
  {
    if caps != [] {
      RunHolds(f, Front(caps), before);
      WrittenHolds(WrittenOnto(f, Front(caps)), Last(caps), before + |caps| - 1);
    }
  }

  lemma FullIdsHandedOut(caps: seq<Capture>)
    requires GoodRun(caps)
    ensures IdsHandedOut(FullFile(caps)) && FullFile(caps).nextSnap == |caps| + 1
  {
    RunHolds(EmptyFile(), caps, 0);
  }

  lemma StrippedUnfold(caps: seq<Capture>, n: nat, before: nat)
    requires 0 < n <= |caps|
    ensures StrippedOnline(caps, n, before) == StrippedOnline(caps, n - 1, before) + StrippedAt(caps, n - 1, before + n)
  {
  }

  lemma UnionAssociative<T>(a: set<T>, b: set<T>, c: set<T>)
    ensures a + (b + c) == (a + b) + c
  {
  }

  lemma {:induction false} StrippedOnlineSnaps(caps: seq<Capture>, n: nat, before: nat)
    requires n <= |caps|
    ensures forall t :: t in StrippedOnline(caps, n, before) ==> before < t.snap <= before + n
  {
    if n > 0 {
      var m: nat := n - 1;
      StrippedOnlineSnaps(caps, m, before);
      StrippedUnfold(caps, n, before);
      forall t | t in StrippedOnline(caps, n, before)
        ensures before < t.snap <= before + n
      {
        StrippedAtSnap(caps, m, before + n, t);
      }
    }
  }

  lemma RetainOneMore(caps: seq<Capture>, m: nat)
    requires m < |caps|
    ensures RetainedUpto(caps, m + 1) == RetainedUpto(caps, m) + [Retained(caps, m)]
  {
  }

  /** Recording a run incidents-only onto a stripped file strips the fully recorded file a little more. */
  ghost predicate IsStrippedAfter(f: File, done: set<ShrinkTarget>, caps: seq<Capture>, n: nat, before: nat)
    requires n <= |caps|
  {
    WrittenOnto(Strip(f, done), RetainedUpto(caps, n)) == Strip(WrittenOnto(f, caps[..n]), done + StrippedOnline(caps, n, before))
  }

  lemma StripStep(f: File, done: set<ShrinkTarget>, c: Capture, c': Capture, cut: set<ShrinkTarget>, n: nat)
    requires HoldsSnapshots(f, n) && CutsDown(c, c', n + 1, cut) && GoodCapture(c)
    requires forall t :: t in done ==> t.snap <= n
    ensures Written(Strip(f, done), c') == Strip(Written(f, c), done + cut)
  {
    WriteThenStrip(f, done, c, c', cut);
  }

  lemma SoFarSnaps(done: set<ShrinkTarget>, caps: seq<Capture>, m: nat, before: nat)
    requires m <= |caps| && forall t :: t in done ==> t.snap <= before
    ensures forall t :: t in done + StrippedOnline(caps, m, before) ==> t.snap <= before + m
  {
    StrippedOnlineSnaps(caps, m, before);
  }

  lemma SoFarGrows(done: set<ShrinkTarget>, caps: seq<Capture>, n: nat, before: nat)
    requires 0 < n <= |caps|
    ensures done + StrippedOnline(caps, n, before) == (done + StrippedOnline(caps, n - 1, before)) + StrippedAt(caps, n - 1, before + n)
  {
    StrippedUnfold(caps, n, before);
    UnionAssociative(done, StrippedOnline(caps, n - 1, before), StrippedAt(caps, n - 1, before + n));
  }

  /** The m-th capture on top of the snapshots before it; x is the file that holds those. */
  lemma RecordedStep(x: File, sofar: set<ShrinkTarget>, caps: seq<Capture>, m: nat, id: nat)
    requires GoodRun(caps) && m < |caps| && id > 0 && HoldsSnapshots(x, id - 1)
    requires forall t :: t in sofar ==> t.snap <= id - 1
    ensures Written(Strip(x, sofar), Retained(caps, m)) == Strip(Written(x, caps[m]), sofar + StrippedAt(caps, m, id))
  {
    RetainedCutsDown(caps, m, id);
    StripStep(x, sofar, caps[m], Retained(caps, m), StrippedAt(caps, m, id), id - 1);
  }

  lemma WrittenUpto(f: File, caps: seq<Capture>, m: nat)
    requires m < |caps|
    ensures WrittenOnto(f, caps[..m + 1]) == Written(WrittenOnto(f, caps[..m]), caps[m])
  {
    OneMore(caps, m);
    WriteOneMore(f, caps[..m], caps[m]);
  }

  lemma RetainedWritten(f: File, caps: seq<Capture>, m: nat)
    requires m < |caps|
    ensures WrittenOnto(f, RetainedUpto(caps, m + 1)) == Written(WrittenOnto(f, RetainedUpto(caps, m)), Retained(caps, m))
  {
    RetainOneMore(caps, m);
    WriteOneMore(f, RetainedUpto(caps, m), Retained(caps, m));
  }

  lemma {:induction false} RecordedIsStripped(f: File, done: set<ShrinkTarget>, caps: seq<Capture>, n: nat, before: nat)
    requires GoodRun(caps) && n <= |caps| && HoldsSnapshots(f, before)
    requires forall t :: t in done ==> t.snap <= before
    ensures IsStrippedAfter(f, done, caps, n, before)
  {
    if n == 0 {
      assert done + StrippedOnline(caps, 0, before) == done;
    } else {
      var m: nat := n - 1;
      RecordedIsStripped(f, done, caps, m, before);
      RunHolds(f, caps[..m], before);
      SoFarSnaps(done, caps, m, before);
      SoFarGrows(done, caps, n, before);
      RecordedStep(WrittenOnto(f, caps[..m]), done + StrippedOnline(caps, m, before), caps, m, before + n);
      RetainedWritten(Strip(f, done), caps, m);
      WrittenUpto(f, caps, m);
    }
  }

  /** Resuming incidents-only: on top of a stripped file the recording strips its own pairs as well. */
  lemma ResumedIsStripped(f: File, done: set<ShrinkTarget>, caps: seq<Capture>, before: nat)
    requires GoodRun(caps) && HoldsSnapshots(f, before) && forall t :: t in done ==> t.snap <= before
    ensures WrittenOnto(Strip(f, done), RetainedUpto(caps, |caps|)) ==
            Strip(WrittenOnto(f, caps), done + StrippedOnline(caps, |caps|, before))
  {
    RecordedIsStripped(f, done, caps, |caps|, before);
    Whole(caps, |caps|);
  }

  /** Resuming in full: the stripping so far and the new captures do not meet. */
  lemma {:induction false} ResumedInFull(f: File, done: set<ShrinkTarget>, caps: seq<Capture>, before: nat)
    requires GoodRun(caps) && HoldsSnapshots(f, before) && forall t :: t in done ==> t.snap <= before
    ensures WrittenOnto(Strip(f, done), caps) == Strip(WrittenOnto(f, caps), done)
  {
    if caps != [] {
      GoodFront(caps);
      ResumedInFull(f, done, Front(caps), before);
      RunHolds(f, Front(caps), before);
      NothingCut(WrittenOnto(f, Front(caps)), done, Last(caps), before + |caps| - 1);
    }
  }

  lemma CutsNothing(c: Capture, id: nat)
    requires GoodCapture(c)
    ensures CutsDown(c, c, id, {})
  {
    KeysIndependentOfId(c, id);
  }

  lemma NothingMore<T>(s: set<T>)
    ensures s + {} == s && {} + s == s
  {
  }

  lemma NothingCut(x: File, done: set<ShrinkTarget>, c: Capture, n: nat)
    requires HoldsSnapshots(x, n) && GoodCapture(c) && forall t :: t in done ==> t.snap <= n
    ensures Written(Strip(x, done), c) == Strip(Written(x, c), done)
  {
    CutsNothing(c, n + 1);
    NothingMore(done);
    StripStep(x, done, c, c, {}, n);
  }

  lemma EmptyFileIsFresh()
    ensures Strip(EmptyFile(), {}) == EmptyFile() && HoldsSnapshots(EmptyFile(), 0)
  {
    Store.StripNothing(EmptyFile());
  }

  /** The incidents-only recording of a run is its full recording, stripped. */
  lemma IncidentsOnlyIsStrippedFull(caps: seq<Capture>)
    requires GoodRun(caps)
    ensures IncidentsOnlyFile(caps) == Strip(FullFile(caps), StrippedOnline(caps, |caps|, 0))
  {
    EmptyFileIsFresh();
    NothingMore(StrippedOnline(caps, |caps|, 0));
    ResumedIsStripped(EmptyFile(), {}, caps, 0);
  }

  // ---- The full file, field by field ----

  lemma HoldsAllStays(f: File, g: File, id: nat, c: Capture, more: nat)
    requires SameBut(f, g, more) && id != more && HoldsAll(f, id, c)
    ensures HoldsAll(g, id, c)
  {
    forall r | r in c.rows
      ensures HoldsRow(g, id, r)
    {
      assert HoldsRow(f, id, r);
    }
    forall l | l in c.podLogs
      ensures HoldsLog(g, id, l)
    {
      assert HoldsLog(f, id, l);
    }
    forall e | e in c.events
      ensures HoldsEvent(g, id, e)
    {
      assert HoldsEvent(f, id, e);
    }
    forall kind | kind in c.kindStatus
      ensures HoldsStatus(g, id, c, kind)
    {
      assert HoldsStatus(f, id, c, kind);
    }
  }

  lemma HoldsNoMoreStays(f: File, g: File, id: nat, c: Capture, more: nat)
    requires SameBut(f, g, more) && id != more && HoldsNoMore(f, id, c)
    ensures HoldsNoMore(g, id, c)
  {
    assert RowsFrom(g, id, c.rows);
    assert LogsFrom(g, id, c.podLogs);
    assert EventsFrom(g, id, c.events);
  }

  lemma HoldsCaptureStays(f: File, g: File, id: nat, c: Capture, more: nat)
    requires SameBut(f, g, more) && id != more && HoldsCapture(f, id, c)
    ensures HoldsCapture(g, id, c)
  {
    assert HoldsAll(g, id, c) by {
      HoldsAllStays(f, g, id, c, more);
    }
    assert HoldsNoMore(g, id, c) by {
      HoldsNoMoreStays(f, g, id, c, more);
    }
  }

  /** Snapshot i + 1 of the file holds capture i with all its fields, and the file holds nothing else. */
  ghost predicate HoldsCaptures(g: File, caps: seq<Capture>) {
    && g.nextSnap == |caps| + 1
    && (forall i :: 0 <= i < |caps| ==> HoldsCapture(g, i + 1, caps[i]))
    && IdsHandedOut(g)
  }

  lemma RunGrows(f: File, caps: seq<Capture>, g: File)
    requires caps != [] && HoldsCaptures(f, Front(caps)) && IsWritten(f, g, Last(caps)) && IdsHandedOut(g)
    ensures HoldsCaptures(g, caps)
  {
    var n := |caps|;
    assert f.nextSnap == n;
    forall i | 0 <= i < n
      ensures HoldsCapture(g, i + 1, caps[i])
    {
      if i < n - 1 {
        assert Front(caps)[i] == caps[i];
        assert HoldsCapture(f, i + 1, Front(caps)[i]);
        HoldsCaptureStays(f, g, i + 1, caps[i], n);
      }
    }
  }

  /** The full recording is the captures themselves: rows, logs, events and statuses, field by field. */
  lemma {:induction false} FullFileHoldsCaptures(caps: seq<Capture>)
    requires GoodRun(caps)
    ensures HoldsCaptures(FullFile(caps), caps)
  {
    if caps != [] {
      GoodFront(caps);
      FullFileHoldsCaptures(Front(caps));
      var f := FullFile(Front(caps));
      WrittenMeans(f, Last(caps));
      RunGrows(f, caps, Written(f, Last(caps)));
    }
  }

  /** A captured log is read back as it was captured. */
  lemma LogsAreStored(caps: seq<Capture>, i: nat, l: PodLog)
    requires GoodRun(caps) && i < |caps| && l in caps[i].podLogs
    ensures FetchPodLog(FullFile(caps), i + 1, l.ns, l.pod) == Some(LogEntry(l.tailLines, |l.content|, l.content, l.errorMsg))
  {
    FullFileHoldsCaptures(caps);
    assert HoldsCapture(FullFile(caps), i + 1, caps[i]);
    assert HoldsLog(FullFile(caps), i + 1, l);
  }

  /** And every stored log was captured. */
  lemma StoredAreLogs(caps: seq<Capture>, k: LogKey) returns (i: nat, l: PodLog)
    requires GoodRun(caps) && k in FullFile(caps).logs
    ensures i < |caps| && l in caps[i].podLogs && k == LogKey(i + 1, l.ns, l.pod)
    ensures FullFile(caps).logs[k] == LogEntry(l.tailLines, |l.content|, l.content, l.errorMsg)
  {
    FullIdsHandedOut(caps);
    i := k.snap - 1;
    l := StoredLog(caps, i, k);
    LogsAreStored(caps, i, l);
  }

  lemma StoredLog(caps: seq<Capture>, i: nat, k: LogKey) returns (l: PodLog)
    requires GoodRun(caps) && i < |caps| && k in FullFile(caps).logs && k.snap == i + 1
    ensures l in caps[i].podLogs && k == LogKey(i + 1, l.ns, l.pod)
  {
    FullFileHoldsCaptures(caps);
    assert HoldsCapture(FullFile(caps), i + 1, caps[i]);
    assert LogsFrom(FullFile(caps), i + 1, caps[i].podLogs);
    l :| l in caps[i].podLogs && k == LogKey(i + 1, l.ns, l.pod);
  }

  // ---- Looking rows up in a full recording ----

  ghost predicate IsRow(caps: seq<Capture>, i: nat, j: nat, k: ResKey) {
    i < |caps| && j < |caps[i].rows| && k == RowKey(i + 1, caps[i].rows[j])
  }

  lemma OldRowsStay(f: File, c: Capture, k: ResKey)
    requires IdsHandedOut(f) && k in f.resources
    ensures k in Written(f, c).resources && Written(f, c).resources[k] == f.resources[k]
  {
    if k in Table(RowEntries(f.nextSnap, c.rows)) {
      var r := RowSource(f.nextSnap, c.rows, k);
    }
  }

  lemma NewRowsAreCaptured(f: File, c: Capture, k: ResKey) returns (j: nat)
    requires WellKeyed(c) && k in Written(f, c).resources && k !in f.resources
    ensures j < |c.rows| && RowKey(f.nextSnap, c.rows[j]) == k
  {
    var e := RowEntries(f.nextSnap, c.rows);
    TableKeys(e, k);
    j :| 0 <= j < |e| && e[j].0 == k;
  }

  lemma WrittenRow(f: File, c: Capture, j: nat)
    requires WellKeyed(c) && j < |c.rows|
    ensures RowKey(f.nextSnap, c.rows[j]) in Written(f, c).resources
    ensures Written(f, c).resources[RowKey(f.nextSnap, c.rows[j])] == ResourceOf(c.rows[j])
  {
    KeysIndependentOfId(c, f.nextSnap);
    TableLookup(RowEntries(f.nextSnap, c.rows), j);
  }

  /** Every captured row is in the full file under its snapshot, with its content. */
  lemma {:induction false} RowsAreStored(caps: seq<Capture>, i: nat, j: nat)
    requires GoodRun(caps) && i < |caps| && j < |caps[i].rows|
    ensures RowKey(i + 1, caps[i].rows[j]) in FullFile(caps).resources
    ensures FullFile(caps).resources[RowKey(i + 1, caps[i].rows[j])] == ResourceOf(caps[i].rows[j])
    ensures var r := caps[i].rows[j]; ResourceOf(r) == Resource(r.uid, r.cells, r.raw, false)
  {
    assert caps[i].rows[j] in caps[i].rows;
    var f := FullFile(Front(caps));
    FullIdsHandedOut(Front(caps));
    if i < |caps| - 1 {
      assert Front(caps)[i] == caps[i];
      RowsAreStored(Front(caps), i, j);
      OldRowsStay(f, Last(caps), RowKey(i + 1, caps[i].rows[j]));
    } else {
      WrittenRow(f, Last(caps), j);
    }
  }

  /** And nothing else is. */
  lemma {:induction false} StoredAreRows(caps: seq<Capture>, k: ResKey) returns (i: nat, j: nat)
    requires GoodRun(caps) && k in FullFile(caps).resources
    ensures IsRow(caps, i, j, k)
  {
    j := NewestOrOlder(caps, k);
    if k in FullFile(Front(caps)).resources {
      GoodFront(caps);
      i, j := StoredAreRows(Front(caps), k);
      RowOfFront(caps, i, j, k);
    } else {
      i := |caps| - 1;
    }
  }

  lemma GoodFront(caps: seq<Capture>)
    requires GoodRun(caps) && caps != []
    ensures GoodRun(Front(caps)) && GoodCapture(Last(caps))
  {
  }

  lemma NewestOrOlder(caps: seq<Capture>, k: ResKey) returns (j: nat)
    requires GoodRun(caps) && k in FullFile(caps).resources
    ensures caps != []
    ensures k in FullFile(Front(caps)).resources || IsRow(caps, |caps| - 1, j, k)
  {
    j := 0;
    if k !in FullFile(Front(caps)).resources {
      GoodFront(caps);
      FullIdsHandedOut(Front(caps));
      j := NewRowsAreCaptured(FullFile(Front(caps)), Last(caps), k);
    }
  }

  lemma RowOfFront(caps: seq<Capture>, i: nat, j: nat, k: ResKey)
    requires caps != [] && IsRow(Front(caps), i, j, k)
    ensures IsRow(caps, i, j, k)
  {
  }

  ghost predicate IsCut(caps: seq<Capture>, i: nat, id: nat, t: ShrinkTarget)
    requires i < |caps|
  {
    t in StrippedAt(caps, i, id)
  }

  ghost predicate IsCutOnline(caps: seq<Capture>, n: nat, before: nat, t: ShrinkTarget)
    requires n <= |caps|
  {
    t in StrippedOnline(caps, n, before)
  }

  lemma StrippedLast(caps: seq<Capture>, i: nat, before: nat, t: ShrinkTarget)
    requires i < |caps| && t.snap == before + i + 1
    ensures IsCutOnline(caps, i + 1, before, t) <==> IsCut(caps, i, before + i + 1, t)
  {
    StrippedUnfold(caps, i + 1, before);
    StrippedOnlineSnaps(caps, i, before);
  }

  lemma StrippedSooner(caps: seq<Capture>, n: nat, before: nat, t: ShrinkTarget)
    requires 0 < n <= |caps| && t.snap != before + n
    ensures IsCutOnline(caps, n, before, t) <==> IsCutOnline(caps, n - 1, before, t)
  {
    StrippedUnfold(caps, n, before);
    StrippedAtSnap(caps, n - 1, before + n, t);
  }

  /** A pair of capture i is stripped by capture i alone, however many follow. */
  lemma {:induction false} StrippedOnlineMembers(caps: seq<Capture>, i: nat, more: nat, before: nat, t: ShrinkTarget)
    requires i + more < |caps| && t.snap == before + i + 1
    ensures IsCutOnline(caps, i + 1 + more, before, t) <==> IsCut(caps, i, before + i + 1, t)
  {
    if more == 0 {
      StrippedLast(caps, i, before, t);
    } else {
      StrippedOnlineMembers(caps, i, more - 1, before, t);
      StrippedSooner(caps, i + 1 + more, before, t);
    }
  }

  /** Row j of capture i as a target, in a file that held `before` snapshots when the run began. */
  function TargetAt(caps: seq<Capture>, i: nat, j: nat, before: nat): ShrinkTarget
    requires i < |caps| && j < |caps[i].rows|
  {
    ShrinkTarget(before + i + 1, caps[i].rows[j].ns, caps[i].rows[j].name)
  }

  lemma RunCuts(caps: seq<Capture>, i: nat, before: nat, t: ShrinkTarget)
    requires i < |caps| && t.snap == before + i + 1
    ensures IsCutOnline(caps, |caps|, before, t) <==> IsCut(caps, i, before + i + 1, t)
  {
    StrippedOnlineMembers(caps, i, |caps| - i - 1, before, t);
  }

  /** A pod row is stripped by its run exactly when the recorder does not keep it. */
  lemma RunVerdict(caps: seq<Capture>, i: nat, j: nat, before: nat)
    requires GoodRun(caps) && i < |caps| && j < |caps[i].rows| && caps[i].rows[j].kind == PODS
    ensures IsCutOnline(caps, |caps|, before, TargetAt(caps, i, j, before)) <==> !KeptOnline(caps, i, j)
  {
    RunCuts(caps, i, before, TargetAt(caps, i, j, before));
    StrippedAtMeans(caps, i, before + i + 1, j);
  }

  /** And only rows are. */
  lemma RunSource(caps: seq<Capture>, before: nat, t: ShrinkTarget) returns (i: nat, j: nat)
    requires IsCutOnline(caps, |caps|, before, t)
    ensures i < |caps| && j < |caps[i].rows| && caps[i].rows[j].kind == PODS && t == TargetAt(caps, i, j, before)
  {
    StrippedOnlineSnaps(caps, |caps|, before);
    i := t.snap - before - 1;
    j := RowOfCut(caps, i, before, t);
  }

  lemma RowOfCut(caps: seq<Capture>, i: nat, before: nat, t: ShrinkTarget) returns (j: nat)
    requires i < |caps| && t.snap == before + i + 1
    ensures IsCutOnline(caps, |caps|, before, t) ==>
              j < |caps[i].rows| && caps[i].rows[j].kind == PODS && t == TargetAt(caps, i, j, before)
  {
    RunCuts(caps, i, before, t);
    j := CutSource(caps, i, before + i + 1, t);
  }

  lemma CutSource(caps: seq<Capture>, i: nat, id: nat, t: ShrinkTarget) returns (j: nat)
    requires i < |caps|
    ensures IsCut(caps, i, id, t) ==>
              j < |caps[i].rows| && caps[i].rows[j].kind == PODS && t == ShrinkTarget(id, caps[i].rows[j].ns, caps[i].rows[j].name)
  {
    j := 0;
    if IsCut(caps, i, id, t) {
      j :| 0 <= j < |caps[i].rows| && !KeptOnline(caps, i, j) && ShrinkTarget(id, caps[i].rows[j].ns, caps[i].rows[j].name) == t;
    }
  }

  lemma StrippedAtSnap(caps: seq<Capture>, i: nat, id: nat, t: ShrinkTarget)
    requires i < |caps|
    ensures t in StrippedAt(caps, i, id) ==> t.snap == id
  {
  }
}
