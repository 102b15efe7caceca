/** The shrink command: read the file, compute the targets, strip them. */
module ShrinkCommand {
  import opened Model
  import opened FileView
  import opened Observations
  import opened Pieces
  import opened Reader
  import opened Runs
  import opened Retention
  import opened Lifetime
  import Snapshotter
  import Store
  import ShrinkTargets
  import Incidents

  /** The foreign keys make every row belong to a listed snapshot. */
  lemma StoreIsListed(db: Store.Tables, snapshots: seq<SnapshotInfo>)
    requires Store.Consistent(db) && IsSnapshotListing(Store.View(db), snapshots) && ClockAgrees(Store.View(db))
    ensures Lists(Ids(snapshots), Store.View(db))
  {
    ListingIncreases(Store.View(db), snapshots);
    forall k | k in Store.View(db).resources
      ensures k.snap in Ids(snapshots)
    {
      assert k in db.heap.resources;
    }
  }

  /** No target is listed twice, so the number of targets is the number of pairs stripped. */
  lemma TargetListIsDistinct(rows: seq<PodHealthRow>, ids: seq<nat>)
    requires Grouped(rows)
    ensures var ts := ShrinkTargets.TargetsOf(Observed(rows, ids)); forall a, b :: 0 <= a < b < |ts| ==> ts[a] != ts[b]
  {
    var obs := Observed(rows, ids);
    ObservedOnce(rows, ids);
    forall j, k | 0 <= j < k < |obs|
      ensures ShrinkTargets.TargetOf(obs[j]) != ShrinkTargets.TargetOf(obs[k])
    {
      ObservedSnapshot(rows, ids, j);
      ObservedSnapshot(rows, ids, k);
    }
    TargetsAreDistinct(HistoriesOf(obs), obs);
  }

  lemma ObservedSnapshot(rows: seq<PodHealthRow>, ids: seq<nat>, k: nat)
    requires k < |Observed(rows, ids)|
    ensures var o := Observed(rows, ids)[k]; o.snap in ids && o.idx == Position(ids, o.snap)
  {
    var r := ObservedSource(rows, ids, k);
    assert [Observed(rows, ids)[k]][0] == Observe(rows[r], ids)[0];
  }

  /** The snapshots and the cursor over pod rows are what the two queries return; None when there is
      nothing to strip. */
  method RunShrink(store: Store.Store, snapshots: seq<SnapshotInfo>, keys: seq<ResKey>) returns (stats: Option<Store.ShrinkStats>)
    requires store.Valid() && IsSnapshotListing(store.Contents(), snapshots) && ClockAgrees(store.Contents())
    requires IsPodCursor(store.Contents(), keys)
    modifies store
    ensures store.Valid()
    ensures Lists(Ids(snapshots), old(store.Contents())) && store.Contents() == Shrunk(old(store.Contents()), Ids(snapshots))
    ensures stats.None? <==> TargetSet(old(store.Contents()), Ids(snapshots)) == {}
    ensures stats.Some? ==>
              stats.value.rowsMarked == |NewlyMarked(old(store.Contents()), TargetSet(old(store.Contents()), Ids(snapshots)))| &&
              stats.value.podLogsDeleted == |DroppedLogs(old(store.Contents()), TargetSet(old(store.Contents()), Ids(snapshots)))|
  {
    ghost var f, ids := store.Contents(), Ids(snapshots);
    StoreIsListed(store.db, snapshots);
    var rows := IteratePodHealthRows(store.Contents(), keys);
    OrderedIsGrouped(rows);
    var targets := ShrinkTargets.ComputeShrinkTargets(rows, snapshots);
    ScannedTargets(f, ids, rows);
    if |targets| == 0 {
      assert TargetSet(f, ids) == {};
      Store.StripNothing(f);
      return None;
    }
    assert targets[0] in TargetSet(f, ids);
    var s := store.Shrink(targets);
    stats := Some(s);
  }

  /** What the viewer loads when it opens the file. */
  method LoadIncidents(f: File, snapshots: seq<SnapshotInfo>, keys: seq<ResKey>) returns (idx: Incidents.IncidentIndex)
    requires IsPodCursor(f, keys) && Lists(Ids(snapshots), f)
    requires forall k :: k in f.resources ==> '/' !in k.ns
    ensures Incidents.IsIndex(idx, FileHistories(f, Ids(snapshots)), |snapshots|)
  {
    var rows := IteratePodHealthRows(f, keys);
    OrderedIsGrouped(rows);
    ScannedHistories(f, Ids(snapshots), rows);
    forall r | 0 <= r < |rows|
      ensures '/' !in rows[r].ns
    {
      assert PodKeyOf(rows[r]) in f.resources;
    }
    idx := Incidents.BuildIncidentIndex(rows, snapshots);
  }

  /** A whole run recorded into a new file, which is then shrunk. */
  method RecordAndShrink(caps: seq<Capture>, incidentsOnly: bool, keys: seq<ResKey>) returns (store: Store.Store)
    requires GoodRun(caps) && forall i, j :: 0 <= i < j < |caps| ==> caps[i].ts < caps[j].ts
    requires IsPodCursor(FullFile(caps), keys)
    ensures fresh(store) && store.Valid()
    ensures store.Contents() == Shrunk(if incidentsOnly then IncidentsOnlyFile(caps) else FullFile(caps), RunIds(caps))
  {
    ModesListed(caps);
    RunListingIsListing(caps);
    store := new Store.Store();
    if incidentsOnly {
      var submissions := Snapshotter.RunIncidentsOnly(store, caps);
      StripKeepsCursor(FullFile(caps), Online(caps), keys);
    } else {
      Snapshotter.RunFull(store, caps);
    }
    var stats := RunShrink(store, RunListing(caps), keys);
  }

  // ---- A file's whole life ----

  /** The clock runs forward over all captures. */
  ghost predicate ClockRuns(caps: seq<Capture>) {
    forall i, j :: 0 <= i < j < |caps| ==> caps[i].ts < caps[j].ts
  }

  lemma LivedListing(life: seq<Phase>)
    requires GoodLife(life) && ClockRuns(Captured(life))
    ensures IsSnapshotListing(Lived(life), RunListing(Captured(life))) && ClockAgrees(Lived(life))
  {
    GoodCaptured(life);
    RunTimestamps(Captured(life));
    LivedIsStripped(life);
    ListingOfRun(Lived(life), Captured(life));
    ClockOfRun(Lived(life), Captured(life));
  }

  /** One phase; snapshots and keys are what the queries return when it is a shrink. */
  method RunPhase(store: Store.Store, s: Phase, snapshots: seq<SnapshotInfo>, keys: seq<ResKey>, ghost before: seq<Capture>)
    requires store.Valid() && Ids(snapshots) == RunIds(before)
    requires s.Shrink? ==> IsSnapshotListing(store.Contents(), snapshots) && ClockAgrees(store.Contents()) && IsPodCursor(store.Contents(), keys)
    modifies store
    ensures store.Valid() && store.Contents() == After(old(store.Contents()), before, s)
  {
    match s
    case Full(caps) =>
      Snapshotter.RunFull(store, caps);
    case Incidents(caps) =>
      var submissions := Snapshotter.RunIncidentsOnly(store, caps);
    case Shrink =>
      var stats := RunShrink(store, snapshots, keys);
  }

  /** The cursors returned whenever the file is about to be shrunk. */
  ghost predicate AreCursors(life: seq<Phase>, keys: seq<seq<ResKey>>) {
    |keys| == |life| && forall n :: 0 <= n < |life| && life[n].Shrink? ==> IsPodCursor(Lived(life[..n]), keys[n])
  }

  lemma ClockOfPart(a: seq<Capture>, b: seq<Capture>)
    requires ClockRuns(a + b)
    ensures ClockRuns(a)
  {
    forall i, j | 0 <= i < j < |a|
      ensures a[i].ts < a[j].ts
    {
      assert (a + b)[i] == a[i] && (a + b)[j] == a[j];
    }
  }

  ghost predicate IsCursorBefore(life: seq<Phase>, n: nat, keys: seq<ResKey>)
    requires n <= |life|
  {
    IsPodCursor(Lived(life[..n]), keys)
  }

  ghost predicate CursorsUpto(life: seq<Phase>, keys: seq<seq<ResKey>>) {
    |keys| <= |life| && forall n :: 0 <= n < |keys| ==> IsCursorBefore(life, n, keys[n])
  }

  lemma OneMoreCursor(life: seq<Phase>, keys: seq<seq<ResKey>>, last: seq<ResKey>)
    requires CursorsUpto(life, keys) && |keys| < |life|
    ensures IsCursorBefore(life, |keys|, last) ==> CursorsUpto(life, keys + [last])
  {
  }

  lemma {:induction false} CursorsBefore(life: seq<Phase>, m: nat) returns (keys: seq<seq<ResKey>>)
    requires m <= |life|
    ensures |keys| == m && CursorsUpto(life, keys)
  {
    if m == 0 {
      keys := [];
    } else {
      var before := CursorsBefore(life, m - 1);
      var last := CursorBefore(life, m - 1);
      OneMoreCursor(life, before, last);
      keys := before + [last];
    }
  }

  lemma CursorBefore(life: seq<Phase>, n: nat) returns (keys: seq<ResKey>)
    requires n <= |life|
    ensures IsCursorBefore(life, n, keys)
  {
    keys := PodCursorExists(Lived(life[..n]));
  }

  /** There always are such cursors. */
  lemma CursorsExist(life: seq<Phase>) returns (keys: seq<seq<ResKey>>)
    ensures AreCursors(life, keys)
  {
    keys := CursorsBefore(life, |life|);
    forall n | 0 <= n < |life|
      ensures IsPodCursor(Lived(life[..n]), keys[n])
    {
      assert IsCursorBefore(life, n, keys[n]);
    }
  }

  lemma LifeSoFar(life: seq<Phase>, n: nat)
    requires GoodLife(life) && n < |life|
    ensures GoodLife(life[..n])
    ensures Lived(life[..n + 1]) == After(Lived(life[..n]), Captured(life[..n]), life[n])
  {
    assert Front(life[..n + 1]) == life[..n] && Last(life[..n + 1]) == life[n];
  }

  lemma {:induction false} ClockRanBefore(life: seq<Phase>, n: nat)
    requires n <= |life| && ClockRuns(Captured(life))
    ensures ClockRuns(Captured(life[..n]))
  {
    if n < |life| {
      assert Front(life)[..n] == life[..n];
      ClockOfPart(Captured(Front(life)), CapsOf(Last(life)));
      ClockRanBefore(Front(life), n);
    } else {
      assert life[..n] == life;
    }
  }

  /** A file goes through its phases one after the other. */
  method Live(life: seq<Phase>, keys: seq<seq<ResKey>>) returns (store: Store.Store)
    requires GoodLife(life) && ClockRuns(Captured(life)) && AreCursors(life, keys)
    ensures fresh(store) && store.Valid() && store.Contents() == Lived(life)
  {
    store := new Store.Store();
    for n := 0 to |life|
      invariant fresh(store) && store.Valid() && store.Contents() == Lived(life[..n])
    {
      ClockRanBefore(life, n);
      LifeSoFar(life, n);
      LivedListing(life[..n]);
      RunPhase(store, life[n], RunListing(Captured(life[..n])), keys[n], Captured(life[..n]));
    }
    assert life[..|life|] == life;
  }
}
