/**
 What a .kk file says, with blob ids out of sight: every row carries its content. The store keeps
 this view in content-addressed tables; everything a reader can ask is a question about this view.
 */
module FileView {
  import opened Model
  import opened Pieces
  import opened History

  datatype ResKey = ResKey(snap: nat, kind: Kind, ns: string, name: string)
  datatype LogKey = LogKey(snap: nat, ns: string, pod: string)
  datatype StatusKey = StatusKey(snap: nat, kind: Kind)
  datatype EventKey = EventKey(snap: nat, ns: string, name: string)

  datatype Resource = Resource(uid: string, cells: seq<string>, data: Bytes, shrunk: bool)
  datatype LogEntry = LogEntry(tailLines: int, bytes: nat, content: Bytes, errorMsg: string)
  datatype Status = Status(status: KindStatus, errorMsg: string)

  datatype File = File(
    nextSnap: nat,          // the id AUTOINCREMENT hands out next
    snaps: map<nat, int>,   // id to timestamp
    statuses: map<StatusKey, Status>,
    resources: map<ResKey, Resource>,
    events: map<EventKey, EventBody>,
    logs: map<LogKey, LogEntry>)

  function EmptyFile(): File {
    File(1, map[], map[], map[], map[], map[])
  }

  // ---- Tables built by inserts ----

  function Table<K, V>(entries: seq<(K, V)>): map<K, V> {
    if entries == [] then map[] else Table(Front(entries))[Last(entries).0 := Last(entries).1]
  }

  ghost predicate UniqueKeys<K, V>(entries: seq<(K, V)>) {
    forall i, j :: 0 <= i < j < |entries| ==> entries[i].0 != entries[j].0
  }

  lemma {:induction false} TableKeys<K, V>(entries: seq<(K, V)>, k: K)
    ensures k in Table(entries) <==> exists i :: 0 <= i < |entries| && entries[i].0 == k
  {
    if entries != [] {
      TableKeys(Front(entries), k);
      if k in Table(Front(entries)) {
        var i :| 0 <= i < |Front(entries)| && Front(entries)[i].0 == k;
        assert entries[i].0 == k;
      }
      if exists i :: 0 <= i < |entries| && entries[i].0 == k {
        var i :| 0 <= i < |entries| && entries[i].0 == k;
        assert i < |Front(entries)| ==> Front(entries)[i].0 == k;
      }
    }
  }

  lemma {:induction false} TableLookup<K, V>(entries: seq<(K, V)>, i: nat)
    requires UniqueKeys(entries) && i < |entries|
    ensures entries[i].0 in Table(entries) && Table(entries)[entries[i].0] == entries[i].1
  {
    if i < |entries| - 1 {
      assert Front(entries)[i] == entries[i];
      assert UniqueKeys(Front(entries));
      TableLookup(Front(entries), i);
    }
  }

  function RowKey(snap: nat, r: Row): ResKey {
    ResKey(snap, r.kind, r.ns, r.name)
  }

  /** What is stored for a row: a shrunk row keeps its cells and loses its JSON. */
  function ResourceOf(r: Row): Resource {
    Resource(r.uid, r.cells, if r.shrunk then [] else r.raw, r.shrunk)
  }

  function RowEntries(snap: nat, rows: seq<Row>): (es: seq<(ResKey, Resource)>)
    ensures |es| == |rows|
    ensures forall i :: 0 <= i < |rows| ==> es[i] == (RowKey(snap, rows[i]), ResourceOf(rows[i]))
  {
    seq(|rows|, i requires 0 <= i < |rows| => (RowKey(snap, rows[i]), ResourceOf(rows[i])))
  }

  function EventEntries(snap: nat, events: seq<Event>): (es: seq<(EventKey, EventBody)>)
    ensures |es| == |events|
    ensures forall i :: 0 <= i < |events| ==> es[i] == (EventKey(snap, events[i].ns, events[i].name), events[i].body)
  {
    seq(|events|, i requires 0 <= i < |events| => (EventKey(snap, events[i].ns, events[i].name), events[i].body))
  }

  function LogOf(l: PodLog): LogEntry {
    LogEntry(l.tailLines, |l.content|, l.content, l.errorMsg)
  }

  function LogEntries(snap: nat, logs: seq<PodLog>): (es: seq<(LogKey, LogEntry)>)
    ensures |es| == |logs|
    ensures forall i :: 0 <= i < |logs| ==> es[i] == (LogKey(snap, logs[i].ns, logs[i].pod), LogOf(logs[i]))
  {
    seq(|logs|, i requires 0 <= i < |logs| => (LogKey(snap, logs[i].ns, logs[i].pod), LogOf(logs[i])))
  }

  function StatusTable(snap: nat, c: Capture): map<StatusKey, Status> {
    map k | k in (set kind | kind in c.kindStatus :: StatusKey(snap, kind)) ::
      Status(c.kindStatus[k.kind], if k.kind in c.kindErrs then c.kindErrs[k.kind] else "")
  }

  /** No two rows, events or logs of one capture share a primary key. */
  ghost predicate WellKeyed(c: Capture) {
    && UniqueKeys(RowEntries(0, c.rows))
    && UniqueKeys(EventEntries(0, c.events))
    && UniqueKeys(LogEntries(0, c.podLogs))
  }

  /** What one capture adds to the file under the given id. */
  datatype Addition = Addition(ts: int, statuses: map<StatusKey, Status>, rows: map<ResKey, Resource>,
                               events: map<EventKey, EventBody>, logs: map<LogKey, LogEntry>)

  function AdditionOf(id: nat, c: Capture): Addition {
    Addition(c.ts, StatusTable(id, c), Table(RowEntries(id, c.rows)), Table(EventEntries(id, c.events)), Table(LogEntries(id, c.podLogs)))
  }

  function Added(f: File, a: Addition): File {
    File(f.nextSnap + 1, f.snaps[f.nextSnap := a.ts], f.statuses + a.statuses, f.resources + a.rows, f.events + a.events, f.logs + a.logs)
  }

  /** One committed write. A capture that repeats a primary key is rejected and changes nothing. */
  ghost function Written(f: File, c: Capture): File {
    if WellKeyed(c) then Added(f, AdditionOf(f.nextSnap, c)) else f
  }

  /** All captures written in order. */
  ghost function WrittenOnto(f: File, caps: seq<Capture>): File {
    if caps == [] then f else Written(WrittenOnto(f, Front(caps)), Last(caps))
  }

  // ---- Stripping ----

  function TargetKey(k: ResKey): ShrinkTarget {
    ShrinkTarget(k.snap, k.ns, k.name)
  }

  function LogTarget(k: LogKey): ShrinkTarget {
    ShrinkTarget(k.snap, k.ns, k.pod)
  }

  /** A pod row that the targets name and that still has its content. */
  predicate Strips(targets: set<ShrinkTarget>, k: ResKey, r: Resource) {
    k.kind == PODS && TargetKey(k) in targets && !r.shrunk
  }

  function Emptied(r: Resource): Resource {
    r.(data := [], shrunk := true)
  }

  function StripRows(rows: map<ResKey, Resource>, targets: set<ShrinkTarget>): map<ResKey, Resource> {
    map k | k in rows :: if Strips(targets, k, rows[k]) then Emptied(rows[k]) else rows[k]
  }

  function StripLogs(logs: map<LogKey, LogEntry>, targets: set<ShrinkTarget>): map<LogKey, LogEntry> {
    map k | k in logs && LogTarget(k) !in targets :: logs[k]
  }

  /** Shrinking: targeted pod rows lose their content, targeted logs disappear, nothing else changes. */
  function Strip(f: File, targets: set<ShrinkTarget>): File {
    f.(resources := StripRows(f.resources, targets), logs := StripLogs(f.logs, targets))
  }

  function NewlyMarked(f: File, targets: set<ShrinkTarget>): set<ResKey> {
    set k | k in f.resources && Strips(targets, k, f.resources[k])
  }

  function DroppedLogs(f: File, targets: set<ShrinkTarget>): set<LogKey> {
    set k | k in f.logs && LogTarget(k) in targets
  }

  /** Stripping some targets first and all of them later is the same as stripping all at once. */
  lemma StripTwice(f: File, a: set<ShrinkTarget>, b: set<ShrinkTarget>)
    requires a <= b
    ensures Strip(Strip(f, a), b) == Strip(f, b)
    ensures Strip(Strip(f, b), a) == Strip(f, b)
    ensures NewlyMarked(Strip(f, b), a) == {} && DroppedLogs(Strip(f, b), a) == {}
  {
    StripBoth(f, a, b);
    StripBoth(f, b, a);
    assert a + b == b && b + a == b;
    StripLeavesNothing(f, a, b);
  }

  lemma StripLeavesNothing(f: File, a: set<ShrinkTarget>, b: set<ShrinkTarget>)
    requires a <= b
    ensures NewlyMarked(Strip(f, b), a) == {} && DroppedLogs(Strip(f, b), a) == {}
  {
  }

  lemma StripBoth(f: File, a: set<ShrinkTarget>, b: set<ShrinkTarget>)
    ensures Strip(Strip(f, a), b) == Strip(f, a + b)
  {
    assert Strip(Strip(f, a), b).resources == Strip(f, a + b).resources;
    assert Strip(Strip(f, a), b).logs == Strip(f, a + b).logs;
  }

  // ---- What the operations mean, field by field ----

  ghost predicate DistinctRows(rows: seq<Row>) {
    forall i, j :: 0 <= i < j < |rows| ==> rows[i].kind != rows[j].kind || rows[i].ns != rows[j].ns || rows[i].name != rows[j].name
  }

  ghost predicate DistinctEvents(events: seq<Event>) {
    forall i, j :: 0 <= i < j < |events| ==> events[i].ns != events[j].ns || events[i].name != events[j].name
  }

  ghost predicate DistinctLogs(logs: seq<PodLog>) {
    forall i, j :: 0 <= i < j < |logs| ==> logs[i].ns != logs[j].ns || logs[i].pod != logs[j].pod
  }

  /** The store accepts a capture exactly when no two of its rows, events or logs collide. */
  lemma WellKeyedMeans(c: Capture)
    ensures WellKeyed(c) <==> DistinctRows(c.rows) && DistinctEvents(c.events) && DistinctLogs(c.podLogs)
  {
    assert forall i :: 0 <= i < |c.rows| ==> RowEntries(0, c.rows)[i].0 == ResKey(0, c.rows[i].kind, c.rows[i].ns, c.rows[i].name);
    assert UniqueKeys(RowEntries(0, c.rows)) <==> DistinctRows(c.rows);
    assert UniqueKeys(EventEntries(0, c.events)) <==> DistinctEvents(c.events);
    assert UniqueKeys(LogEntries(0, c.podLogs)) <==> DistinctLogs(c.podLogs);
  }

  ghost predicate HoldsRow(g: File, id: nat, r: Row) {
    var k := ResKey(id, r.kind, r.ns, r.name);
    k in g.resources && g.resources[k] == if r.shrunk then Resource(r.uid, r.cells, [], true) else Resource(r.uid, r.cells, r.raw, false)
  }

  ghost predicate HoldsLog(g: File, id: nat, l: PodLog) {
    var k := LogKey(id, l.ns, l.pod);
    k in g.logs && g.logs[k] == LogEntry(l.tailLines, |l.content|, l.content, l.errorMsg)
  }

  ghost predicate HoldsEvent(g: File, id: nat, e: Event) {
    var k := EventKey(id, e.ns, e.name);
    k in g.events && g.events[k] == e.body
  }

  ghost predicate HoldsStatus(g: File, id: nat, c: Capture, kind: Kind) {
    var k := StatusKey(id, kind);
    k in g.statuses && kind in c.kindStatus && g.statuses[k].status == c.kindStatus[kind] &&
    g.statuses[k].errorMsg == if kind in c.kindErrs then c.kindErrs[kind] else ""
  }

  /** Everything captured is in the file under the id, with all its fields. */
  ghost predicate HoldsAll(g: File, id: nat, c: Capture) {
    && (forall r :: r in c.rows ==> HoldsRow(g, id, r))
    && (forall l :: l in c.podLogs ==> HoldsLog(g, id, l))
    && (forall e :: e in c.events ==> HoldsEvent(g, id, e))
    && (forall kind :: kind in c.kindStatus ==> HoldsStatus(g, id, c, kind))
  }

  ghost predicate RowsFrom(g: File, id: nat, rows: seq<Row>) {
    forall k :: k in g.resources && k.snap == id ==> exists r :: r in rows && k == ResKey(id, r.kind, r.ns, r.name)
  }

  ghost predicate LogsFrom(g: File, id: nat, logs: seq<PodLog>) {
    forall k :: k in g.logs && k.snap == id ==> exists l :: l in logs && k == LogKey(id, l.ns, l.pod)
  }

  ghost predicate EventsFrom(g: File, id: nat, events: seq<Event>) {
    forall k :: k in g.events && k.snap == id ==> exists e :: e in events && k == EventKey(id, e.ns, e.name)
  }

  ghost predicate StatusesFrom(g: File, id: nat, c: Capture) {
    forall k :: k in g.statuses && k.snap == id ==> k.kind in c.kindStatus
  }

  /** And nothing else is. */
  ghost predicate HoldsNoMore(g: File, id: nat, c: Capture) {
    RowsFrom(g, id, c.rows) && LogsFrom(g, id, c.podLogs) && EventsFrom(g, id, c.events) && StatusesFrom(g, id, c)
  }

  ghost predicate HoldsCapture(g: File, id: nat, c: Capture) {
    id in g.snaps && g.snaps[id] == c.ts && HoldsAll(g, id, c) && HoldsNoMore(g, id, c)
  }

  /** Apart from snapshot id the two files are the same. */
  ghost predicate SameBut(f: File, g: File, id: nat) {
    && (forall s :: s != id ==> (s in f.snaps <==> s in g.snaps) && (s in f.snaps ==> g.snaps[s] == f.snaps[s]))
    && (forall k: ResKey :: k.snap != id ==> (k in f.resources <==> k in g.resources) && (k in f.resources ==> g.resources[k] == f.resources[k]))
    && (forall k: LogKey :: k.snap != id ==> (k in f.logs <==> k in g.logs) && (k in f.logs ==> g.logs[k] == f.logs[k]))
    && (forall k: EventKey :: k.snap != id ==> (k in f.events <==> k in g.events) && (k in f.events ==> g.events[k] == f.events[k]))
    && (forall k: StatusKey :: k.snap != id ==> (k in f.statuses <==> k in g.statuses) && (k in f.statuses ==> g.statuses[k] == f.statuses[k]))
  }

  /** Every key has a snapshot id that was handed out. */
  ghost predicate IdsHandedOut(f: File) {
    && 1 <= f.nextSnap && (forall s :: s in f.snaps ==> 1 <= s < f.nextSnap)
    && (forall k :: k in f.resources ==> 1 <= k.snap < f.nextSnap) && (forall k :: k in f.logs ==> 1 <= k.snap < f.nextSnap)
    && (forall k :: k in f.events ==> 1 <= k.snap < f.nextSnap) && (forall k :: k in f.statuses ==> 1 <= k.snap < f.nextSnap)
  }

  lemma RowsAreHeld(id: nat, rows: seq<Row>, base: map<ResKey, Resource>, more: map<ResKey, Resource>, g: File)
    requires UniqueKeys(RowEntries(id, rows)) && more == Table(RowEntries(id, rows)) && g.resources == base + more
    ensures forall r :: r in rows ==> HoldsRow(g, id, r)
  {
    forall r | r in rows
      ensures HoldsRow(g, id, r)
    {
      var i :| 0 <= i < |rows| && rows[i] == r;
      TableLookup(RowEntries(id, rows), i);
    }
  }

  lemma LogsAreHeld(id: nat, logs: seq<PodLog>, base: map<LogKey, LogEntry>, more: map<LogKey, LogEntry>, g: File)
    requires UniqueKeys(LogEntries(id, logs)) && more == Table(LogEntries(id, logs)) && g.logs == base + more
    ensures forall l :: l in logs ==> HoldsLog(g, id, l)
  {
    forall l | l in logs
      ensures HoldsLog(g, id, l)
    {
      var i :| 0 <= i < |logs| && logs[i] == l;
      TableLookup(LogEntries(id, logs), i);
    }
  }

  lemma EventsAreHeld(id: nat, events: seq<Event>, base: map<EventKey, EventBody>, more: map<EventKey, EventBody>, g: File)
    requires UniqueKeys(EventEntries(id, events)) && more == Table(EventEntries(id, events)) && g.events == base + more
    ensures forall e :: e in events ==> HoldsEvent(g, id, e)
  {
    forall e | e in events
      ensures HoldsEvent(g, id, e)
    {
      var i :| 0 <= i < |events| && events[i] == e;
      TableLookup(EventEntries(id, events), i);
    }
  }

  lemma StatusesAreHeld(id: nat, c: Capture, base: map<StatusKey, Status>, more: map<StatusKey, Status>, g: File)
    requires more == StatusTable(id, c) && g.statuses == base + more
    ensures forall kind :: kind in c.kindStatus ==> HoldsStatus(g, id, c, kind)
  {
    forall kind | kind in c.kindStatus
      ensures HoldsStatus(g, id, c, kind)
    {
      assert StatusKey(id, kind) in StatusTable(id, c);
    }
  }

  lemma RowSource(id: nat, rows: seq<Row>, k: ResKey) returns (r: Row)
    requires k in Table(RowEntries(id, rows))
    ensures r in rows && k == ResKey(id, r.kind, r.ns, r.name)
  {
    TableKeys(RowEntries(id, rows), k);
    var i :| 0 <= i < |rows| && RowEntries(id, rows)[i].0 == k;
    r := rows[i];
  }

  lemma LogSource(id: nat, logs: seq<PodLog>, k: LogKey) returns (l: PodLog)
    requires k in Table(LogEntries(id, logs))
    ensures l in logs && k == LogKey(id, l.ns, l.pod)
  {
    TableKeys(LogEntries(id, logs), k);
    var i :| 0 <= i < |logs| && LogEntries(id, logs)[i].0 == k;
    l := logs[i];
  }

  lemma EventSource(id: nat, events: seq<Event>, k: EventKey) returns (e: Event)
    requires k in Table(EventEntries(id, events))
    ensures e in events && k == EventKey(id, e.ns, e.name)
  {
    TableKeys(EventEntries(id, events), k);
    var i :| 0 <= i < |events| && EventEntries(id, events)[i].0 == k;
    e := events[i];
  }

  /** What a capture adds is under its own id. */
  lemma AdditionHasId(id: nat, c: Capture)
    ensures forall k :: k in AdditionOf(id, c).rows ==> k.snap == id
    ensures forall k :: k in AdditionOf(id, c).logs ==> k.snap == id
    ensures forall k :: k in AdditionOf(id, c).events ==> k.snap == id
    ensures forall k :: k in AdditionOf(id, c).statuses ==> k.snap == id
  {
    forall k | k in Table(RowEntries(id, c.rows))
      ensures k.snap == id
    {
      var r := RowSource(id, c.rows, k);
    }
    forall k | k in Table(LogEntries(id, c.podLogs))
      ensures k.snap == id
    {
      var l := LogSource(id, c.podLogs, k);
    }
    forall k | k in Table(EventEntries(id, c.events))
      ensures k.snap == id
    {
      var e := EventSource(id, c.events, k);
    }
  }

  lemma SameKeysUnique<K, V>(a: seq<(K, V)>, b: seq<(K, V)>)
    requires |a| == |b|
    requires forall i, j :: 0 <= i < j < |a| ==> (a[i].0 == a[j].0 <==> b[i].0 == b[j].0)
    ensures UniqueKeys(a) <==> UniqueKeys(b)
  {
  }

  lemma KeysIndependentOfId(c: Capture, id: nat)
    ensures WellKeyed(c) <==>
            UniqueKeys(RowEntries(id, c.rows)) && UniqueKeys(EventEntries(id, c.events)) && UniqueKeys(LogEntries(id, c.podLogs))
  {
    SameKeysUnique(RowEntries(0, c.rows), RowEntries(id, c.rows));
    SameKeysUnique(EventEntries(0, c.events), EventEntries(id, c.events));
    SameKeysUnique(LogEntries(0, c.podLogs), LogEntries(id, c.podLogs));
  }

  lemma RowsAreSourced(id: nat, rows: seq<Row>, base: map<ResKey, Resource>, more: map<ResKey, Resource>, g: File)
    requires more == Table(RowEntries(id, rows)) && g.resources == base + more && forall k :: k in base ==> k.snap < id
    ensures RowsFrom(g, id, rows)
  {
    forall k | k in g.resources && k.snap == id
      ensures exists r :: r in rows && k == ResKey(id, r.kind, r.ns, r.name)
    {
      var r := RowSource(id, rows, k);
    }
  }

  lemma LogsAreSourced(id: nat, logs: seq<PodLog>, base: map<LogKey, LogEntry>, more: map<LogKey, LogEntry>, g: File)
    requires more == Table(LogEntries(id, logs)) && g.logs == base + more && forall k :: k in base ==> k.snap < id
    ensures LogsFrom(g, id, logs)
  {
    forall k | k in g.logs && k.snap == id
      ensures exists l :: l in logs && k == LogKey(id, l.ns, l.pod)
    {
      var l := LogSource(id, logs, k);
    }
  }

  lemma EventsAreSourced(id: nat, events: seq<Event>, base: map<EventKey, EventBody>, more: map<EventKey, EventBody>, g: File)
    requires more == Table(EventEntries(id, events)) && g.events == base + more && forall k :: k in base ==> k.snap < id
    ensures EventsFrom(g, id, events)
  {
    forall k | k in g.events && k.snap == id
      ensures exists e :: e in events && k == EventKey(id, e.ns, e.name)
    {
      var e := EventSource(id, events, k);
    }
  }

  lemma StatusesAreSourced(id: nat, c: Capture, base: map<StatusKey, Status>, more: map<StatusKey, Status>, g: File)
    requires more == StatusTable(id, c) && g.statuses == base + more && forall k :: k in base ==> k.snap < id
    ensures StatusesFrom(g, id, c)
  {
  }

  lemma AddedHoldsAll(f: File, c: Capture, id: nat, a: Addition, g: File)
    requires WellKeyed(c) && a == AdditionOf(id, c) && g == Added(f, a)
    ensures HoldsAll(g, id, c)
  {
    KeysIndependentOfId(c, id);
    RowsAreHeld(id, c.rows, f.resources, a.rows, g);
    LogsAreHeld(id, c.podLogs, f.logs, a.logs, g);
    EventsAreHeld(id, c.events, f.events, a.events, g);
    StatusesAreHeld(id, c, f.statuses, a.statuses, g);
  }

  /** A committed write adds the capture under the next id and leaves every other snapshot as it was. */
  ghost predicate IsWritten(f: File, g: File, c: Capture) {
    HoldsCapture(g, f.nextSnap, c) && SameBut(f, g, f.nextSnap) && g.nextSnap == f.nextSnap + 1
  }

  lemma AddedHolds(f: File, c: Capture, id: nat, a: Addition, g: File)
    requires WellKeyed(c) && IdsHandedOut(f) && id == f.nextSnap && a == AdditionOf(id, c) && g == Added(f, a)
    ensures HoldsCapture(g, id, c)
  {
    assert HoldsAll(g, id, c) by {
      AddedHoldsAll(f, c, id, a, g);
    }
    assert RowsFrom(g, id, c.rows) by {
      RowsAreSourced(id, c.rows, f.resources, a.rows, g);
    }
    assert LogsFrom(g, id, c.podLogs) by {
      LogsAreSourced(id, c.podLogs, f.logs, a.logs, g);
    }
    assert EventsFrom(g, id, c.events) by {
      EventsAreSourced(id, c.events, f.events, a.events, g);
    }
    assert StatusesFrom(g, id, c) by {
      StatusesAreSourced(id, c, f.statuses, a.statuses, g);
    }
  }

  lemma AddedMeans(f: File, c: Capture, id: nat, a: Addition, g: File)
    requires WellKeyed(c) && IdsHandedOut(f) && id == f.nextSnap && a == AdditionOf(id, c) && g == Added(f, a)
    ensures IsWritten(f, g, c) && IdsHandedOut(g)
  {
    assert HoldsCapture(g, id, c) by {
      AddedHolds(f, c, id, a, g);
    }
    assert SameBut(f, g, id) && IdsHandedOut(g) by {
      AdditionHasId(id, c);
      AddedElsewhere(f, a);
    }
  }

  lemma WrittenMeans(f: File, c: Capture)
    requires WellKeyed(c) && IdsHandedOut(f)
    ensures IsWritten(f, Written(f, c), c) && IdsHandedOut(Written(f, c))
  {
    AddedMeans(f, c, f.nextSnap, AdditionOf(f.nextSnap, c), Written(f, c));
  }

  lemma AddedElsewhere(f: File, a: Addition)
    requires IdsHandedOut(f)
    requires (forall k :: k in a.rows ==> k.snap == f.nextSnap) && (forall k :: k in a.logs ==> k.snap == f.nextSnap)
    requires (forall k :: k in a.events ==> k.snap == f.nextSnap) && (forall k :: k in a.statuses ==> k.snap == f.nextSnap)
    ensures SameBut(f, Added(f, a), f.nextSnap) && IdsHandedOut(Added(f, a))
  {
  }

  /** Pod rows named by a target read back empty and flagged, logs named by one are gone, and all else is
      as it was. */
  ghost predicate IsStripped(f: File, g: File, targets: set<ShrinkTarget>) {
    && g.nextSnap == f.nextSnap && g.snaps == f.snaps && g.statuses == f.statuses && g.events == f.events
    && g.resources.Keys == f.resources.Keys
    && (forall k :: k in f.resources ==>
          if k.kind == "pods" && ShrinkTarget(k.snap, k.ns, k.name) in targets && !f.resources[k].shrunk
          then g.resources[k] == Resource(f.resources[k].uid, f.resources[k].cells, [], true)
          else g.resources[k] == f.resources[k])
    && (forall k :: k in g.logs <==> k in f.logs && ShrinkTarget(k.snap, k.ns, k.pod) !in targets)
    && (forall k :: k in g.logs ==> g.logs[k] == f.logs[k])
  }

  ghost function ChangedRows(f: File, g: File): set<ResKey> {
    set k | k in f.resources && !(k in g.resources && g.resources[k] == f.resources[k])
  }

  lemma StripMeans(f: File, targets: set<ShrinkTarget>)
    ensures IsStripped(f, Strip(f, targets), targets)
  {
  }

  /** The rows marked are the rows that change, and the logs dropped are the logs that go. */
  lemma MarkedAreTheChanged(f: File, targets: set<ShrinkTarget>)
    ensures NewlyMarked(f, targets) == ChangedRows(f, Strip(f, targets))
    ensures DroppedLogs(f, targets) == f.logs.Keys - Strip(f, targets).logs.Keys
  {
  }

  // ---- Reading ----

  datatype Option<+T> = None | Some(value: T)

  function FetchRaw(f: File, snap: nat, kind: Kind, ns: string, name: string): Option<Bytes> {
    var k := ResKey(snap, kind, ns, name);
    if k in f.resources then Some(f.resources[k].data) else None
  }

  function FetchPodLog(f: File, snap: nat, ns: string, pod: string): Option<LogEntry> {
    var k := LogKey(snap, ns, pod);
    if k in f.logs then Some(f.logs[k]) else None
  }

  /** The snapshots holding an unstripped copy. */
  function RealCopies(f: File, kind: Kind, ns: string, name: string): set<nat> {
    set k | k in f.resources && k.kind == kind && k.ns == ns && k.name == name && !f.resources[k].shrunk :: k.snap
  }

  ghost function Oldest(snaps: set<nat>): (s: int)
    requires exists k :: k in snaps
    ensures s in snaps && forall t :: t in snaps ==> s <= t
  {
    var k :| k in snaps;
    FirstExists(snaps, k);
    var s :| s in snaps && forall t :: t in snaps ==> s <= t;
    s
  }

  /** The oldest unstripped copy anywhere in the file. */
  ghost function FetchAnyRealBlob(f: File, kind: Kind, ns: string, name: string): Option<Bytes> {
    var snaps := RealCopies(f, kind, ns, name);
    if exists k :: k in snaps then FetchRaw(f, Oldest(snaps), kind, ns, name) else None
  }
}
