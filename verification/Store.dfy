/** The .kk file: every committed transaction is one atomic method on the tables. */
module Store {
  import opened Model
  import opened FileView
  import opened Pieces
  import opened Blobs

  /** The tables, with the AUTOINCREMENT counter of the snapshots. */
  datatype Tables = Tables(
    nextSnap: nat,
    snaps: map<nat, int>,
    statuses: map<StatusKey, Status>,
    events: map<EventKey, EventBody>,
    heap: Heap)

  /** The foreign keys into the snapshots table; an id is never handed out twice. */
  ghost predicate SnapshotsKnown(db: Tables) {
    && 1 <= db.nextSnap
    && (forall s :: s in db.snaps ==> 1 <= s < db.nextSnap)
    && (forall k :: k in db.heap.resources ==> k.snap in db.snaps)
    && (forall k :: k in db.heap.logs ==> k.snap in db.snaps)
    && (forall k :: k in db.events ==> k.snap in db.snaps)
    && (forall k :: k in db.statuses ==> k.snap in db.snaps)
  }

  ghost predicate Consistent(db: Tables) {
    Sound(db.heap) && NoOrphans(db.heap) && SnapshotsKnown(db)
  }

  function View(db: Tables): File
    requires NoDangling(db.heap)
  {
    File(db.nextSnap, db.snaps, db.statuses, ViewResources(db.heap), db.events, ViewLogs(db.heap))
  }

  // ---- Writing one snapshot ----

  /** One insert into a table that already holds the first i entries. */
  lemma Inserting<K, V>(base: map<K, V>, entries: seq<(K, V)>, i: nat, now: map<K, V>)
    requires i < |entries| && now == base + Table(entries[..i]) && UniqueKeys(entries[..i])
    requires entries[i].0 !in base
    ensures now[entries[i].0 := entries[i].1] == base + Table(entries[..i + 1])
    ensures entries[i].0 in now ==> !UniqueKeys(entries)
    ensures entries[i].0 !in now ==> UniqueKeys(entries[..i + 1])
  {
    var k := entries[i].0;
    assert Front(entries[..i + 1]) == entries[..i];
    TableKeys(entries[..i], k);
    if k in now {
      var j :| 0 <= j < |entries[..i]| && entries[..i][j].0 == k;
      assert entries[j].0 == entries[i].0;
    } else {
      forall j | 0 <= j < i
        ensures entries[j].0 != k
      {
        assert entries[..i][j].0 == entries[j].0;
      }
    }
  }

  /** The rows loop: it gets through exactly when no primary key repeats. */
  method InsertRows(h: Heap, id: nat, rows: seq<Row>, ghost base: map<ResKey, Resource>)
    returns (ok: bool, h': Heap, cache: map<Bytes, nat>)
    requires Sound(h) && NoOrphans(h) && ViewResources(h) == base
    requires forall k :: k in base ==> k.snap != id
    ensures ok <==> UniqueKeys(RowEntries(id, rows))
    ensures ok ==> Sound(h') && NoOrphans(h') && CacheOk(cache, h')
    ensures ok ==> ViewResources(h') == base + Table(RowEntries(id, rows)) && ViewLogs(h') == ViewLogs(h)
  {
    ghost var entries := RowEntries(id, rows);
    ghost var logs := ViewLogs(h);
    var placeholder: nat := 0;
    h', cache, ok := h, map[], true;
    for i := 0 to |rows|
      invariant Sound(h') && NoOrphans(h') && CacheOk(cache, h') && PlaceholderOk(placeholder, h')
      invariant UniqueKeys(entries[..i])
      invariant ViewResources(h') == base + Table(entries[..i]) && ViewLogs(h') == logs
    {
      ok, h', cache, placeholder := InsertNextRow(h', RowKey(id, rows[i]), rows[i], cache, placeholder, entries, i, base);
      if !ok {
        return;
      }
    }
    assert entries[..|rows|] == entries;
  }

  /** The i-th insert of the rows loop. */
  method InsertNextRow(h: Heap, key: ResKey, r: Row, cache: map<Bytes, nat>, placeholder: nat,
                       ghost entries: seq<(ResKey, Resource)>, ghost i: nat, ghost base: map<ResKey, Resource>)
    returns (ok: bool, h': Heap, cache': map<Bytes, nat>, placeholder': nat)
    requires Sound(h) && NoOrphans(h) && CacheOk(cache, h) && PlaceholderOk(placeholder, h)
    requires i < |entries| && entries[i] == (key, ResourceOf(r)) && key !in base
    requires UniqueKeys(entries[..i]) && ViewResources(h) == base + Table(entries[..i])
    ensures !ok ==> !UniqueKeys(entries)
    ensures ok ==> Sound(h') && NoOrphans(h') && CacheOk(cache', h') && PlaceholderOk(placeholder', h') && ViewLogs(h') == ViewLogs(h)
    ensures ok ==> UniqueKeys(entries[..i + 1]) && ViewResources(h') == base + Table(entries[..i + 1])
  {
    Inserting(base, entries, i, ViewResources(h));
    assert key in h.resources <==> key in ViewResources(h);
    ok, h', cache', placeholder' := key !in h.resources, h, cache, placeholder;
    if ok {
      h', cache', placeholder' := InsertRow(h, key, r, cache, placeholder);
    }
  }

  method InsertEvents(events0: map<EventKey, EventBody>, id: nat, events: seq<Event>)
    returns (ok: bool, events': map<EventKey, EventBody>)
    requires forall k :: k in events0 ==> k.snap != id
    ensures ok <==> UniqueKeys(EventEntries(id, events))
    ensures ok ==> events' == events0 + Table(EventEntries(id, events))
  {
    ghost var entries := EventEntries(id, events);
    events', ok := events0, true;
    for i := 0 to |events|
      invariant UniqueKeys(entries[..i])
      invariant events' == events0 + Table(entries[..i])
    {
      Inserting(events0, entries, i, events');
      var key := EventKey(id, events[i].ns, events[i].name);
      if key in events' {
        ok := false;
        return;
      }
      events' := events'[key := events[i].body];
    }
    assert entries[..|events|] == entries;
  }

  lemma NothingInserted<K, V>(base: map<K, V>, entries: seq<(K, V)>)
    ensures base + Table(entries[..0]) == base && UniqueKeys(entries[..0])
  {
  }

  method InsertLogs(h: Heap, id: nat, logs: seq<PodLog>, cache0: map<Bytes, nat>, ghost base: map<LogKey, LogEntry>)
    returns (ok: bool, h': Heap)
    requires Sound(h) && NoOrphans(h) && CacheOk(cache0, h) && ViewLogs(h) == base
    requires forall k :: k in base ==> k.snap != id
    ensures ok <==> UniqueKeys(LogEntries(id, logs))
    ensures ok ==> Sound(h') && NoOrphans(h')
    ensures ok ==> ViewLogs(h') == base + Table(LogEntries(id, logs)) && ViewResources(h') == ViewResources(h)
  {
    ghost var entries, resources := LogEntries(id, logs), ViewResources(h);
    var cache := cache0;
    h', ok := h, true;
    NothingInserted(base, entries);
    for i := 0 to |logs|
      invariant Sound(h') && NoOrphans(h') && CacheOk(cache, h')
      invariant UniqueKeys(entries[..i])
      invariant ViewLogs(h') == base + Table(entries[..i]) && ViewResources(h') == resources
    {
      ok, h', cache := InsertNextLog(h', LogKey(id, logs[i].ns, logs[i].pod), logs[i], cache, entries, i, base);
      if !ok {
        return;
      }
    }
    assert entries[..|logs|] == entries;
  }

  /** The i-th insert of the logs loop. */
  method InsertNextLog(h: Heap, key: LogKey, l: PodLog, cache: map<Bytes, nat>,
                       ghost entries: seq<(LogKey, LogEntry)>, ghost i: nat, ghost base: map<LogKey, LogEntry>)
    returns (ok: bool, h': Heap, cache': map<Bytes, nat>)
    requires Sound(h) && NoOrphans(h) && CacheOk(cache, h)
    requires i < |entries| && entries[i] == (key, LogOf(l)) && key !in base
    requires UniqueKeys(entries[..i]) && ViewLogs(h) == base + Table(entries[..i])
    ensures !ok ==> !UniqueKeys(entries)
    ensures ok ==> Sound(h') && NoOrphans(h') && CacheOk(cache', h') && ViewResources(h') == ViewResources(h)
    ensures ok ==> UniqueKeys(entries[..i + 1]) && ViewLogs(h') == base + Table(entries[..i + 1])
  {
    Inserting(base, entries, i, ViewLogs(h));
    assert key in h.logs <==> key in ViewLogs(h);
    ok, h', cache' := key !in h.logs, h, cache;
    if ok {
      h', cache' := InsertLog(h, key, l, cache);
    }
  }

  lemma RowSnapshots(h: Heap, h': Heap, id: nat, rows: seq<Row>)
    requires NoDangling(h) && NoDangling(h') && ViewResources(h') == ViewResources(h) + Table(RowEntries(id, rows))
    ensures forall k :: k in h'.resources ==> k in h.resources || k.snap == id
  {
    forall k | k in h'.resources
      ensures k in h.resources || k.snap == id
    {
      assert k in ViewResources(h');
      TableKeys(RowEntries(id, rows), k);
    }
  }

  lemma LogSnapshots(h: Heap, h': Heap, id: nat, logs: seq<PodLog>)
    requires NoDangling(h) && NoDangling(h') && ViewLogs(h') == ViewLogs(h) + Table(LogEntries(id, logs))
    ensures forall k :: k in h'.logs ==> k in h.logs || k.snap == id
  {
    forall k | k in h'.logs
      ensures k in h.logs || k.snap == id
    {
      assert k in ViewLogs(h');
      TableKeys(LogEntries(id, logs), k);
    }
  }

  /** What a committed write leaves in the tables. */
  ghost predicate Committed(db: Tables, tx: Tables, c: Capture) {
    var id := db.nextSnap;
    && NoDangling(db.heap) && NoDangling(tx.heap)
    && tx.nextSnap == id + 1 && tx.snaps == db.snaps[id := c.ts]
    && tx.statuses == db.statuses + StatusTable(id, c)
    && tx.events == db.events + Table(EventEntries(id, c.events))
    && ViewResources(tx.heap) == ViewResources(db.heap) + Table(RowEntries(id, c.rows))
    && ViewLogs(tx.heap) == ViewLogs(db.heap) + Table(LogEntries(id, c.podLogs))
  }

  lemma OtherSnapshots(db: Tables, tx: Tables, id: nat, c: Capture)
    requires tx.statuses == db.statuses + StatusTable(id, c) && tx.events == db.events + Table(EventEntries(id, c.events))
    ensures forall k :: k in tx.events ==> k in db.events || k.snap == id
    ensures forall k :: k in tx.statuses ==> k in db.statuses || k.snap == id
  {
    AdditionHasId(id, c);
  }

  /** Whatever is new belongs to the new snapshot. */
  ghost predicate AddsOneSnapshot(db: Tables, tx: Tables) {
    && (forall s :: s in tx.snaps <==> s in db.snaps || s == db.nextSnap)
    && (forall k :: k in tx.heap.resources ==> k in db.heap.resources || k.snap == db.nextSnap)
    && (forall k :: k in tx.heap.logs ==> k in db.heap.logs || k.snap == db.nextSnap)
    && (forall k :: k in tx.events ==> k in db.events || k.snap == db.nextSnap)
    && (forall k :: k in tx.statuses ==> k in db.statuses || k.snap == db.nextSnap)
  }

  lemma CommittedAddsOneSnapshot(db: Tables, tx: Tables, c: Capture)
    requires Committed(db, tx, c)
    ensures AddsOneSnapshot(db, tx)
  {
    RowSnapshots(db.heap, tx.heap, db.nextSnap, c.rows);
    LogSnapshots(db.heap, tx.heap, db.nextSnap, c.podLogs);
    OtherSnapshots(db, tx, db.nextSnap, c);
  }

  lemma CommittedKeepsSnapshotsKnown(db: Tables, tx: Tables, c: Capture)
    requires Committed(db, tx, c) && SnapshotsKnown(db)
    ensures SnapshotsKnown(tx)
  {
    CommittedAddsOneSnapshot(db, tx, c);
    MoreSnapshotsKnown(db, tx);
  }

  lemma MoreSnapshotsKnown(db: Tables, tx: Tables)
    requires SnapshotsKnown(db) && tx.nextSnap == db.nextSnap + 1 && AddsOneSnapshot(db, tx)
    ensures SnapshotsKnown(tx)
  {
  }

  lemma CommittedIsAdded(db: Tables, tx: Tables, c: Capture)
    requires Committed(db, tx, c)
    ensures View(tx) == Added(View(db), AdditionOf(db.nextSnap, c))
  {
  }

  lemma CommittedIsWritten(db: Tables, tx: Tables, c: Capture)
    requires Committed(db, tx, c) && WellKeyed(c)
    ensures View(tx) == Written(View(db), c)
  {
    CommittedIsAdded(db, tx, c);
  }

  lemma NewIdIsFree(db: Tables)
    requires Consistent(db)
    ensures forall k :: k in ViewResources(db.heap) ==> k.snap != db.nextSnap
    ensures forall k :: k in ViewLogs(db.heap) ==> k.snap != db.nextSnap
    ensures forall k :: k in db.events ==> k.snap != db.nextSnap
  {
  }

  /** The transaction of one write, on a copy of the tables. */
  method WriteTables(db: Tables, c: Capture) returns (ok: bool, tx: Tables)
    requires Consistent(db)
    ensures ok <==> WellKeyed(c)
    ensures ok ==> Sound(tx.heap) && NoOrphans(tx.heap) && Committed(db, tx, c)
  {
    var id := db.nextSnap;
    KeysIndependentOfId(c, id);
    NewIdIsFree(db);
    tx := db;
    var heap, cache, events;
    ok, heap, cache := InsertRows(db.heap, id, c.rows, ViewResources(db.heap));
    if ok {
      ok, events := InsertEvents(db.events, id, c.events);
      if ok {
        ok, heap := InsertLogs(heap, id, c.podLogs, cache, ViewLogs(db.heap));
        if ok {
          tx := Tables(id + 1, db.snaps[id := c.ts], db.statuses + StatusTable(id, c), events, heap);
        }
      }
    }
  }

  // ---- Shrinking ----

  datatype ShrinkStats = ShrinkStats(rowsMarked: nat, podLogsDeleted: nat, blobsBefore: nat, blobsAfter: nat)

  function PodRowKey(t: ShrinkTarget): ResKey {
    ResKey(t.snap, PODS, t.ns, t.pod)
  }

  function LogKeyOf(t: ShrinkTarget): LogKey {
    LogKey(t.snap, t.ns, t.pod)
  }

  lemma StripOneRow(f: File, done: set<ShrinkTarget>, t: ShrinkTarget)
    ensures var was, now := Strip(f, done).resources, Strip(f, done + {t}).resources;
            var k := PodRowKey(t);
            if k in was && !was[k].shrunk
            then now == was[k := Emptied(was[k])] && |NewlyMarked(f, done + {t})| == |NewlyMarked(f, done)| + 1
            else now == was && |NewlyMarked(f, done + {t})| == |NewlyMarked(f, done)|
  {
    MarkOneRow(f, done, t);
    var was, now, k := Strip(f, done).resources, Strip(f, done + {t}).resources, PodRowKey(t);
    forall x | x in f.resources && x != k
      ensures now[x] == was[x]
    {
    }
    SameButOne(was, now, k);
  }

  lemma SameButOne(was: map<ResKey, Resource>, now: map<ResKey, Resource>, k: ResKey)
    requires now.Keys == was.Keys && forall x :: x in was && x != k ==> now[x] == was[x]
    ensures now == if k in was then was[k := now[k]] else was
  {
  }

  lemma MarkOneRow(f: File, done: set<ShrinkTarget>, t: ShrinkTarget)
    ensures var was := Strip(f, done).resources;
            NewlyMarked(f, done + {t}) == NewlyMarked(f, done) + (if PodRowKey(t) in was && !was[PodRowKey(t)].shrunk then {PodRowKey(t)} else {})
    ensures var was := Strip(f, done).resources;
            PodRowKey(t) in was && !was[PodRowKey(t)].shrunk ==> PodRowKey(t) !in NewlyMarked(f, done)
  {
    assert forall x: ResKey :: TargetKey(x) == t && x.kind == PODS <==> x == PodRowKey(t);
  }

  lemma StripOneLog(f: File, done: set<ShrinkTarget>, t: ShrinkTarget)
    ensures Strip(f, done + {t}).logs == Strip(f, done).logs - {LogKeyOf(t)}
    ensures |DroppedLogs(f, done + {t})| == |DroppedLogs(f, done)| + (if LogKeyOf(t) in Strip(f, done).logs then 1 else 0)
  {
    var l := LogKeyOf(t);
    assert forall x: LogKey :: LogTarget(x) == t <==> x == l;
    DropOneLog(f, done, t);
  }

  lemma DropOneLog(f: File, done: set<ShrinkTarget>, t: ShrinkTarget)
    ensures DroppedLogs(f, done + {t}) == DroppedLogs(f, done) + (if LogKeyOf(t) in Strip(f, done).logs then {LogKeyOf(t)} else {})
    ensures LogKeyOf(t) in Strip(f, done).logs ==> LogKeyOf(t) !in DroppedLogs(f, done)
  {
    assert forall x: LogKey :: LogTarget(x) == t <==> x == LogKeyOf(t);
  }

  /** The UPDATE for one target: an unstripped row is pointed at the placeholder. */
  method StripRow(h: Heap, placeholder: nat, k: ResKey) returns (h': Heap, rows: nat)
    requires Sound(h) && placeholder in h.blobs && h.blobs[placeholder] == []
    ensures Sound(h') && h'.blobs == h.blobs && ViewLogs(h') == ViewLogs(h)
    ensures var was := ViewResources(h);
            if k in was && !was[k].shrunk then rows == 1 && ViewResources(h') == was[k := Emptied(was[k])]
            else rows == 0 && ViewResources(h') == was
  {
    if k in h.resources && !h.resources[k].shrunk {
      var row := h.resources[k].(blob := placeholder, shrunk := true);
      RowView(h, k, row);
      h', rows := WithRow(h, k, row), 1;
    } else {
      h', rows := h, 0;
    }
  }

  /** The DELETE for one target. */
  method DropLog(h: Heap, k: LogKey) returns (h': Heap, logs: nat)
    requires Sound(h)
    ensures Sound(h') && h'.blobs == h.blobs && ViewResources(h') == ViewResources(h)
    ensures ViewLogs(h') == ViewLogs(h) - {k}
    ensures logs == if k in ViewLogs(h) then 1 else 0
  {
    if k in h.logs {
      h', logs := h.(logs := h.logs - {k}), 1;
    } else {
      h', logs := h, 0;
    }
  }

  /** How far a shrink that began on f has come. */
  ghost predicate Shrinking(h: Heap, placeholder: nat, f: File, done: set<ShrinkTarget>, rows: nat, logs: nat) {
    && Sound(h)
    && placeholder in h.blobs && h.blobs[placeholder] == []
    && ViewResources(h) == Strip(f, done).resources
    && ViewLogs(h) == Strip(f, done).logs
    && rows == |NewlyMarked(f, done)|
    && logs == |DroppedLogs(f, done)|
  }

  method StripOne(h: Heap, placeholder: nat, t: ShrinkTarget, ghost f: File, ghost done: set<ShrinkTarget>, rows0: nat, logs0: nat)
    returns (h': Heap, rows: nat, logs: nat)
    requires Shrinking(h, placeholder, f, done, rows0, logs0)
    ensures Shrinking(h', placeholder, f, done + {t}, rows, logs)
  {
    StripOneRow(f, done, t);
    StripOneLog(f, done, t);
    var mid, r := StripRow(h, placeholder, PodRowKey(t));
    var l;
    h', l := DropLog(mid, LogKeyOf(t));
    rows, logs := rows0 + r, logs0 + l;
  }

  ghost function Upto(targets: seq<ShrinkTarget>, i: nat): set<ShrinkTarget>
    requires i <= |targets|
  {
    set t | t in targets[..i]
  }

  lemma StripNothing(f: File)
    ensures Strip(f, {}) == f && NewlyMarked(f, {}) == {} && DroppedLogs(f, {}) == {}
  {
    assert Strip(f, {}).resources == f.resources;
    assert Strip(f, {}).logs == f.logs;
  }

  /** The strip loop and the garbage collection. */
  method StripAll(h: Heap, targets: seq<ShrinkTarget>, ghost f: File, ghost all: set<ShrinkTarget>) returns (h': Heap, rows: nat, logs: nat)
    requires Sound(h) && ViewResources(h) == f.resources && ViewLogs(h) == f.logs
    requires all == set t | t in targets
    ensures Sound(h') && NoOrphans(h')
    ensures ViewResources(h') == Strip(f, all).resources && ViewLogs(h') == Strip(f, all).logs
    ensures rows == |NewlyMarked(f, all)| && logs == |DroppedLogs(f, all)|
  {
    StripNothing(f);
    var placeholder;
    h', placeholder := UpsertEmptyBlob(h);
    HeldIsSound(h, h', placeholder, []);
    rows, logs := 0, 0;
    assert Upto(targets, 0) == {};
    for i := 0 to |targets|
      invariant Shrinking(h', placeholder, f, Upto(targets, i), rows, logs)
    {
      assert Upto(targets, i + 1) == Upto(targets, i) + {targets[i]};
      h', rows, logs := StripOne(h', placeholder, targets[i], f, Upto(targets, i), rows, logs);
    }
    assert Upto(targets, |targets|) == all;
    CollectedIsSound(h');
    h' := Collected(h');
  }

  lemma ShrunkTables(db: Tables, heap: Heap, targets: set<ShrinkTarget>)
    requires Consistent(db) && Sound(heap) && NoOrphans(heap)
    requires ViewResources(heap) == Strip(View(db), targets).resources
    requires ViewLogs(heap) == Strip(View(db), targets).logs
    ensures Consistent(db.(heap := heap)) && View(db.(heap := heap)) == Strip(View(db), targets)
  {
    assert forall k :: k in heap.resources ==> k in ViewResources(heap);
    assert forall k :: k in heap.logs ==> k in ViewLogs(heap);
  }

  lemma KnownIdsAreHandedOut(db: Tables)
    requires Consistent(db)
    ensures IdsHandedOut(View(db))
  {
  }

  class Store {
    var db: Tables

    ghost predicate Valid()
      reads this
    {
      Consistent(db)
    }

    function Contents(): File
      requires Valid()
      reads this
    {
      View(db)
    }

    constructor ()
      ensures Valid() && Contents() == EmptyFile()
    {
      db := Tables(1, map[], map[], map[], Heap(map[], map[], map[], 0));
    }

    /** Persists one capture in one transaction; a repeated primary key rolls everything back. */
    method WriteSnapshot(c: Capture) returns (id: Option<nat>)
      requires Valid()
      modifies this
      ensures Valid() && Contents() == Written(old(Contents()), c)
      ensures id == if WellKeyed(c) then Some(old(db.nextSnap)) else None
      ensures id.Some? <==> DistinctRows(c.rows) && DistinctEvents(c.events) && DistinctLogs(c.podLogs)
      ensures id.Some? ==> IsWritten(old(Contents()), Contents(), c)
      ensures id.None? ==> Contents() == old(Contents())
    {
      WellKeyedMeans(c);
      var ok, tx := WriteTables(db, c);
      if !ok {
        return None;
      }
      KnownIdsAreHandedOut(db);
      WrittenMeans(View(db), c);
      CommittedKeepsSnapshotsKnown(db, tx, c);
      CommittedIsWritten(db, tx, c);
      id := Some(db.nextSnap);
      db := tx;
    }

    /** Strips the targets in one transaction and collects the blobs nothing points at any more. */
    method Shrink(targets: seq<ShrinkTarget>) returns (stats: ShrinkStats)
      requires Valid()
      modifies this
      ensures Valid() && Contents() == Strip(old(Contents()), set t | t in targets)
      ensures stats.rowsMarked == |NewlyMarked(old(Contents()), set t | t in targets)|
      ensures stats.podLogsDeleted == |DroppedLogs(old(Contents()), set t | t in targets)|
      ensures IsStripped(old(Contents()), Contents(), set t | t in targets)
      ensures stats.rowsMarked == |ChangedRows(old(Contents()), Contents())|
      ensures stats.podLogsDeleted == |old(Contents()).logs.Keys - Contents().logs.Keys|
      ensures stats.blobsBefore == |Shown(old(db.heap))| && stats.blobsAfter == |Shown(db.heap)|
    {
      ghost var f, all := View(db), set t | t in targets;
      BlobsAreTheDistinctContents(db.heap);
      StripMeans(f, all);
      MarkedAreTheChanged(f, all);
      if |targets| == 0 {
        StripNothing(f);
        assert all == {};
        return ShrinkStats(0, 0, |db.heap.blobs|, |db.heap.blobs|);
      }
      var heap, rows, logs := StripAll(db.heap, targets, f, all);
      BlobsAreTheDistinctContents(heap);
      ShrunkTables(db, heap, all);
      stats := ShrinkStats(rows, logs, |db.heap.blobs|, |heap.blobs|);
      db := db.(heap := heap);
    }
  }

  // ---- Any interleaving ----

  datatype Operation = Write(capture: Capture) | ShrinkWith(targets: seq<ShrinkTarget>)

  ghost function Applied(f: File, op: Operation): File {
    match op
    case Write(c) => Written(f, c)
    case ShrinkWith(targets) => Strip(f, set t | t in targets)
  }

  ghost function Replayed(f: File, ops: seq<Operation>): File {
    if ops == [] then f else Applied(Replayed(f, Front(ops)), Last(ops))
  }

  /** Whatever writes and shrinks a file has been through, its tables say what the operations say, and
      they hold exactly one blob for each distinct content in use. */
  method Replay(ops: seq<Operation>) returns (store: Store)
    ensures fresh(store) && store.Valid() && store.Contents() == Replayed(EmptyFile(), ops)
    ensures |store.db.heap.blobs| == |Shown(store.db.heap)|
  {
    store := new Store();
    for i := 0 to |ops|
      invariant fresh(store) && store.Valid() && store.Contents() == Replayed(EmptyFile(), ops[..i])
    {
      assert Front(ops[..i + 1]) == ops[..i];
      match ops[i] {
        case Write(c) =>
          var id := store.WriteSnapshot(c);
        case ShrinkWith(targets) =>
          var stats := store.Shrink(targets);
      }
    }
    assert ops[..|ops|] == ops;
    BlobsAreTheDistinctContents(store.db.heap);
  }
}
