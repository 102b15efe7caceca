/** When a resource changed: the snapshots whose blob differs from the one before. */
module ResourceTimeline {
  import opened Model
  import opened FileView
  import opened Store

  /** One row of the query: a snapshot that holds the resource, and the id of the blob it holds. */
  datatype TimelineRow = TimelineRow(snapshot: SnapshotInfo, blob: nat)

  /** The result set, as far as the reports depend on it: snapshots that hold the resource, each once. */
  ghost predicate IsResourceCursor(db: Tables, kind: Kind, ns: string, name: string, rows: seq<TimelineRow>) {
    && (forall i :: 0 <= i < |rows| ==> IsJoined(db, ResKey(rows[i].snapshot.id, kind, ns, name), rows[i]))
    && (forall i, j :: 0 <= i < j < |rows| ==> rows[i].snapshot != rows[j].snapshot)
  }

  ghost predicate IsJoined(db: Tables, k: ResKey, row: TimelineRow) {
    && k in db.heap.resources && row.blob == db.heap.resources[k].blob
    && k.snap in db.snaps && row.snapshot.ts == db.snaps[k.snap]
  }

  /** What the reader sees in the i-th row's snapshot. */
  function ContentAt(f: File, kind: Kind, ns: string, name: string, row: TimelineRow): Option<Bytes> {
    FetchRaw(f, row.snapshot.id, kind, ns, name)
  }

  predicate IsChange(rows: seq<TimelineRow>, i: nat)
    requires i < |rows|
  {
    i == 0 || rows[i].blob != rows[i - 1].blob
  }

  /** The snapshots among the first n rows where the blob changed, in order. */
  function ChangesAmong(rows: seq<TimelineRow>, n: nat): seq<SnapshotInfo>
    requires n <= |rows|
  {
    if n == 0 then []
    else ChangesAmong(rows, n - 1) + (if IsChange(rows, n - 1) then [rows[n - 1].snapshot] else [])
  }

  /** The reports are those of the rows `at`, which are the rows among the first n where the blob
      changes, in row order. */
  ghost predicate AreReports(out: seq<SnapshotInfo>, at: seq<nat>, rows: seq<TimelineRow>, n: nat)
    requires n <= |rows|
  {
    && |out| == |at|
    && (forall p :: 0 <= p < |at| ==> at[p] < n && out[p] == rows[at[p]].snapshot)
    && (forall p, q :: 0 <= p < q < |at| ==> at[p] < at[q])
    && (forall i :: i in at <==> 0 <= i < n && IsChange(rows, i))
  }

  lemma OneMoreReport(out: seq<SnapshotInfo>, at: seq<nat>, rows: seq<TimelineRow>, m: nat, n: nat)
    requires m + 1 == n <= |rows| && AreReports(out, at, rows, m)
    ensures IsChange(rows, m) ==> AreReports(out + [rows[m].snapshot], at + [m], rows, n)
    ensures !IsChange(rows, m) ==> AreReports(out + [], at, rows, n)
  {
    assert out + [] == out;
  }

  lemma {:induction false} ReportsInOrder(rows: seq<TimelineRow>, n: nat) returns (at: seq<nat>)
    requires n <= |rows|
    ensures AreReports(ChangesAmong(rows, n), at, rows, n)
  {
    if n == 0 {
      at := [];
    } else {
      var m: nat := n - 1;
      at := ReportsInOrder(rows, m);
      OneMoreReport(ChangesAmong(rows, m), at, rows, m, n);
      if IsChange(rows, m) {
        at := at + [m];
      }
    }
  }

  method ResourceTimeline(rows: seq<TimelineRow>) returns (out: seq<SnapshotInfo>)
    ensures out == ChangesAmong(rows, |rows|)
    ensures exists at :: AreReports(out, at, rows, |rows|)
  {
    out := [];
    var lastBlob: int := -1;
    for i := 0 to |rows|
      invariant out == ChangesAmong(rows, i)
      invariant lastBlob == if i == 0 then -1 else rows[i - 1].blob
    {
      if rows[i].blob != lastBlob {
        out := out + [rows[i].snapshot];
        lastBlob := rows[i].blob;
      }
    }
    ghost var at := ReportsInOrder(rows, |rows|);
  }

  lemma SameBlobIsSameContent(db: Tables, kind: Kind, ns: string, name: string, a: TimelineRow, b: TimelineRow)
    requires Consistent(db)
    requires IsJoined(db, ResKey(a.snapshot.id, kind, ns, name), a) && IsJoined(db, ResKey(b.snapshot.id, kind, ns, name), b)
    ensures a.blob == b.blob <==> ContentAt(View(db), kind, ns, name, a) == ContentAt(View(db), kind, ns, name, b)
  {
    assert ContentAt(View(db), kind, ns, name, a) == Some(db.heap.blobs[a.blob]);
    assert ContentAt(View(db), kind, ns, name, b) == Some(db.heap.blobs[b.blob]);
  }

  /** A snapshot is reported exactly when it is the first or shows something else than the one before:
      blob ids can tell because no content is stored twice. */
  lemma ReportedAreChanges(db: Tables, kind: Kind, ns: string, name: string, rows: seq<TimelineRow>, i: nat)
    requires Consistent(db) && IsResourceCursor(db, kind, ns, name, rows) && i < |rows|
    ensures rows[i].snapshot in ChangesAmong(rows, |rows|) <==>
            i == 0 || ContentAt(View(db), kind, ns, name, rows[i]) != ContentAt(View(db), kind, ns, name, rows[i - 1])
  {
    ReportedAmong(rows, |rows|, i);
    if i > 0 {
      SameBlobIsSameContent(db, kind, ns, name, rows[i], rows[i - 1]);
    }
  }

  lemma {:induction false} ReportedAmong(rows: seq<TimelineRow>, n: nat, i: nat)
    requires i < |rows| && n <= |rows|
    requires forall a, b :: 0 <= a < b < |rows| ==> rows[a].snapshot != rows[b].snapshot
    ensures rows[i].snapshot in ChangesAmong(rows, n) <==> i < n && IsChange(rows, i)
  {
    if n > 0 {
      ReportedAmong(rows, n - 1, i);
    }
  }

  lemma {:induction false} LatestChange(rows: seq<TimelineRow>, i: nat) returns (r: nat)
    requires i < |rows|
    ensures r <= i && IsChange(rows, r) && rows[r].blob == rows[i].blob
    ensures forall m :: r < m <= i ==> !IsChange(rows, m)
  {
    if IsChange(rows, i) {
      r := i;
    } else {
      r := LatestChange(rows, i - 1);
    }
  }

  lemma ReportedAll(rows: seq<TimelineRow>)
    requires forall a, b :: 0 <= a < b < |rows| ==> rows[a].snapshot != rows[b].snapshot
    ensures forall m :: 0 <= m < |rows| ==> (rows[m].snapshot in ChangesAmong(rows, |rows|) <==> IsChange(rows, m))
  {
    forall m | 0 <= m < |rows|
      ensures rows[m].snapshot in ChangesAmong(rows, |rows|) <==> IsChange(rows, m)
    {
      ReportedAmong(rows, |rows|, m);
    }
  }

  /** Between two reports nothing changes: a snapshot shows what the latest report before it showed. */
  lemma {:induction false} LatestReport(db: Tables, kind: Kind, ns: string, name: string, rows: seq<TimelineRow>, i: nat) returns (r: nat)
    requires Consistent(db) && IsResourceCursor(db, kind, ns, name, rows) && i < |rows|
    ensures r <= i && rows[r].snapshot in ChangesAmong(rows, |rows|)
    ensures forall m :: r < m <= i ==> rows[m].snapshot !in ChangesAmong(rows, |rows|)
    ensures ContentAt(View(db), kind, ns, name, rows[r]) == ContentAt(View(db), kind, ns, name, rows[i])
  {
    r := LatestChange(rows, i);
    ReportedAll(rows);
    SameBlobIsSameContent(db, kind, ns, name, rows[r], rows[i]);
  }
}
