/**
 What stripping does to a pod's change timeline: an emptied row differs from the rows around it, so the
 timeline reports changes that are none and may miss changes that are.
 */
module ChangeTimeline {
  import opened Model
  import opened FileView
  import opened Reader
  import opened Observations
  import opened ResourceTimeline
  import opened Runs
  import opened Retention
  import opened StandIns
  import opened Survival
  import History
  import Pieces
  import Store

  /** The whole result set, in timestamp order. */
  ghost predicate IsTimeline(db: Store.Tables, kind: Kind, ns: string, name: string, rows: seq<TimelineRow>) {
    && IsResourceCursor(db, kind, ns, name, rows)
    && (forall i, j :: 0 <= i < j < |rows| ==> rows[i].snapshot.ts <= rows[j].snapshot.ts)
    && (forall s :: ResKey(s, kind, ns, name) in db.heap.resources ==> s in SnapIds(rows))
  }

  function SnapIds(rows: seq<TimelineRow>): (ids: seq<nat>)
    ensures |ids| == |rows| && forall i :: 0 <= i < |rows| ==> ids[i] == rows[i].snapshot.id
  {
    seq(|rows|, i requires 0 <= i < |rows| => rows[i].snapshot.id)
  }

  // ---- The rows of a recorded pod ----

  /** Snapshot id s shows the name. */
  ghost predicate IsSighting(caps: seq<Capture>, p: History.Pod, s: nat) {
    0 < s && NameShownAt(caps, s - 1, p)
  }

  /** The ids are those of the sightings, in order. */
  ghost predicate AreSightings(ids: seq<nat>, caps: seq<Capture>, p: History.Pod) {
    && Increasing(ids)
    && (forall i :: 0 <= i < |ids| ==> IsSighting(caps, p, ids[i]))
    && (forall s :: IsSighting(caps, p, s) ==> s in ids)
  }

  lemma KeysInView(db: Store.Tables, k: ResKey)
    requires Store.Consistent(db)
    ensures k in db.heap.resources <==> k in Store.View(db).resources
  {
  }

  lemma StoredRowIsSighting(caps: seq<Capture>, p: History.Pod, s: nat)
    requires GoodRun(caps) && ResKey(s, PODS, p.ns, p.name) in FullFile(caps).resources
    ensures IsSighting(caps, p, s)
  {
    var i, j := StoredAreRows(caps, ResKey(s, PODS, p.ns, p.name));
    assert Shows(caps, i, j, p);
  }

  lemma ShownIsStored(caps: seq<Capture>, p: History.Pod, u: nat, s: nat)
    requires GoodRun(caps) && NameShownAt(caps, u, p) && s == u + 1
    ensures ResKey(s, PODS, p.ns, p.name) in FullFile(caps).resources
  {
    var j :| Shows(caps, u, j, p);
    RowsAreStored(caps, u, j);
    assert ResKey(s, PODS, p.ns, p.name) == RowKey(u + 1, caps[u].rows[j]);
  }

  lemma SightingIsStored(caps: seq<Capture>, p: History.Pod, s: nat)
    requires GoodRun(caps)
    ensures IsSighting(caps, p, s) ==> ResKey(s, PODS, p.ns, p.name) in FullFile(caps).resources
  {
    if IsSighting(caps, p, s) {
      ShownIsStored(caps, p, s - 1, s);
    }
  }

  lemma RowIsSighting(caps: seq<Capture>, cut: set<ShrinkTarget>, p: History.Pod, s: nat)
    requires GoodRun(caps)
    ensures ResKey(s, PODS, p.ns, p.name) in Strip(FullFile(caps), cut).resources <==> IsSighting(caps, p, s)
  {
    if ResKey(s, PODS, p.ns, p.name) in FullFile(caps).resources {
      StoredRowIsSighting(caps, p, s);
    }
    SightingIsStored(caps, p, s);
  }

  lemma TimelineIncreases(db: Store.Tables, kind: Kind, ns: string, name: string, rows: seq<TimelineRow>)
    requires Store.Consistent(db) && ClockAgrees(Store.View(db)) && IsTimeline(db, kind, ns, name, rows)
    ensures Increasing(SnapIds(rows))
  {
    forall i, j | 0 <= i < j < |rows|
      ensures rows[i].snapshot.id < rows[j].snapshot.id
    {
      assert IsJoined(db, ResKey(rows[i].snapshot.id, kind, ns, name), rows[i]);
      assert IsJoined(db, ResKey(rows[j].snapshot.id, kind, ns, name), rows[j]);
      assert rows[i].snapshot != rows[j].snapshot;
    }
  }

  /** The reports of a whole timeline have strictly increasing snapshot ids, so none comes twice. */
  lemma ReportsIncrease(db: Store.Tables, kind: Kind, ns: string, name: string, rows: seq<TimelineRow>)
    requires Store.Consistent(db) && ClockAgrees(Store.View(db)) && IsTimeline(db, kind, ns, name, rows)
    ensures Increasing(Ids(ChangesAmong(rows, |rows|)))
  {
    var at := ReportsInOrder(rows, |rows|);
    TimelineIncreases(db, kind, ns, name, rows);
    forall p, q | 0 <= p < q < |at|
      ensures rows[at[p]].snapshot.id < rows[at[q]].snapshot.id
    {
      assert SnapIds(rows)[at[p]] < SnapIds(rows)[at[q]];
    }
  }

  /** The tables hold the run's full recording with the cut stripped. */
  ghost predicate HoldsRun(db: Store.Tables, caps: seq<Capture>, cut: set<ShrinkTarget>) {
    Store.Consistent(db) && Store.View(db) == Strip(FullFile(caps), cut)
  }

  lemma StoredIsSighting(db: Store.Tables, caps: seq<Capture>, cut: set<ShrinkTarget>, p: History.Pod, s: nat)
    requires GoodRun(caps) && HoldsRun(db, caps, cut)
    ensures ResKey(s, PODS, p.ns, p.name) in db.heap.resources <==> IsSighting(caps, p, s)
  {
    KeysInView(db, ResKey(s, PODS, p.ns, p.name));
    RowIsSighting(caps, cut, p, s);
  }

  lemma TimelineShowsSightings(db: Store.Tables, caps: seq<Capture>, cut: set<ShrinkTarget>, p: History.Pod, rows: seq<TimelineRow>)
    requires GoodRun(caps) && HoldsRun(db, caps, cut) && ClockAgrees(Store.View(db)) && IsTimeline(db, PODS, p.ns, p.name, rows)
    ensures AreSightings(SnapIds(rows), caps, p)
  {
    TimelineIncreases(db, PODS, p.ns, p.name, rows);
    forall s
      ensures ResKey(s, PODS, p.ns, p.name) in db.heap.resources <==> IsSighting(caps, p, s)
    {
      StoredIsSighting(db, caps, cut, p, s);
    }
    RowsAreSightings(db, caps, p, rows);
  }

  lemma RowsAreSightings(db: Store.Tables, caps: seq<Capture>, p: History.Pod, rows: seq<TimelineRow>)
    requires IsTimeline(db, PODS, p.ns, p.name, rows) && Increasing(SnapIds(rows))
    requires forall s :: ResKey(s, PODS, p.ns, p.name) in db.heap.resources <==> IsSighting(caps, p, s)
    ensures AreSightings(SnapIds(rows), caps, p)
  {
    forall i | 0 <= i < |rows|
      ensures IsSighting(caps, p, SnapIds(rows)[i])
    {
      assert IsJoined(db, ResKey(rows[i].snapshot.id, PODS, p.ns, p.name), rows[i]);
    }
  }

  // ---- Both files list the same sightings ----

  lemma BothHaveIds(a: seq<nat>, b: seq<nat>)
    requires b != [] && forall x :: x in a <==> x in b
    ensures a != []
  {
    assert b[0] in a;
  }

  lemma LastIsGreatest(a: seq<nat>, b: seq<nat>)
    requires Increasing(b) && a != [] && b != [] && forall x :: x in a ==> x in b
    ensures Pieces.Last(a) <= Pieces.Last(b)
  {
    assert Pieces.Last(a) in a;
  }

  lemma FrontsAlike(a: seq<nat>, b: seq<nat>)
    requires Increasing(a) && Increasing(b) && a != [] && b != [] && Pieces.Last(a) == Pieces.Last(b)
    requires forall x :: x in a <==> x in b
    ensures Increasing(Pieces.Front(a)) && Increasing(Pieces.Front(b))
    ensures forall x :: x in Pieces.Front(a) <==> x in Pieces.Front(b)
  {
    Pieces.FrontLast(a);
    Pieces.FrontLast(b);
    forall x
      ensures x in Pieces.Front(a) <==> x in a && x != Pieces.Last(a)
      ensures x in Pieces.Front(b) <==> x in b && x != Pieces.Last(b)
    {
    }
  }

  lemma {:induction false} IdsDetermined(a: seq<nat>, b: seq<nat>)
    requires Increasing(a) && Increasing(b) && forall x :: x in a <==> x in b
    ensures a == b
  {
    if b != [] {
      BothHaveIds(a, b);
    }
    if a != [] {
      BothHaveIds(b, a);
      LastIsGreatest(a, b);
      LastIsGreatest(b, a);
      FrontsAlike(a, b);
      IdsDetermined(Pieces.Front(a), Pieces.Front(b));
      Pieces.FrontLast(a);
      Pieces.FrontLast(b);
    }
  }

  lemma SightingsDetermined(a: seq<nat>, b: seq<nat>, caps: seq<Capture>, p: History.Pod)
    requires AreSightings(a, caps, p) && AreSightings(b, caps, p)
    ensures a == b
  {
    forall x
      ensures x in a <==> x in b
    {
      if x in a {
        SightingListed(a, b, caps, p, x);
      }
      if x in b {
        SightingListed(b, a, caps, p, x);
      }
    }
    IdsDetermined(a, b);
  }

  lemma SightingListed(a: seq<nat>, b: seq<nat>, caps: seq<Capture>, p: History.Pod, x: nat)
    requires AreSightings(a, caps, p) && AreSightings(b, caps, p) && x in a
    ensures x in b
  {
    var i :| 0 <= i < |a| && a[i] == x;
    assert IsSighting(caps, p, x);
  }

  // ---- Neighbours in the timeline ----

  /** Two neighbours are a sighting and the last one before it. */
  lemma NeighboursAreLastShown(ids: seq<nat>, caps: seq<Capture>, p: History.Pod, i: nat)
    requires AreSightings(ids, caps, p) && 0 < i < |ids|
    ensures IsSighting(caps, p, ids[i]) && IsSighting(caps, p, ids[i - 1]) && LastShown(caps, ids[i] as int - 1, ids[i - 1] as int - 1, p)
  {
    forall w: nat | NameShownAt(caps, w, p) && w + 1 < ids[i]
      ensures w + 1 <= ids[i - 1]
    {
      assert IsSighting(caps, p, w + 1);
      var m :| 0 <= m < |ids| && ids[m] == w + 1;
    }
  }

  /** And every sighting but the first has its neighbour. */
  lemma LastShownAreNeighbours(ids: seq<nat>, caps: seq<Capture>, p: History.Pod, u: nat, v: nat) returns (i: nat)
    requires AreSightings(ids, caps, p) && NameShownAt(caps, v, p) && LastShown(caps, v, u, p)
    ensures 0 < i < |ids| && ids[i] == v + 1 && ids[i - 1] == u + 1
  {
    assert IsSighting(caps, p, v + 1) && IsSighting(caps, p, u + 1);
    i :| 0 <= i < |ids| && ids[i] == v + 1;
    var m :| 0 <= m < |ids| && ids[m] == u + 1;
    assert m < i;
    assert IsSighting(caps, p, ids[i - 1]);
  }

  // ---- What the timeline reports ----

  /** What the stripped file holds for row (u, x). */
  ghost function LeftOf(caps: seq<Capture>, keep: Rule, u: int, x: int): Bytes
    requires IsPodRow(caps, u, x)
  {
    if keep(u, x) then caps[u].rows[x].raw else []
  }

  /** Between a sighting and the last one before it: both are kept, or the content changes exactly when just
      one of them is. */
  ghost predicate StepKept(caps: seq<Capture>, keep: Rule, u: int, x: int, v: int, y: int)
    requires IsPodRow(caps, u, x) && IsPodRow(caps, v, y)
  {
    (keep(u, x) && keep(v, y)) || (caps[u].rows[x].raw != caps[v].rows[y].raw <==> keep(u, x) != keep(v, y))
  }

  ghost predicate TimelineKept(caps: seq<Capture>, keep: Rule, p: History.Pod) {
    forall u, x, v, y :: Shows(caps, u, x, p) && Shows(caps, v, y, p) && LastShown(caps, v, u, p) ==> StepKept(caps, keep, u, x, v, y)
  }

  lemma StepKeptMeans(caps: seq<Capture>, keep: Rule, u: int, x: int, v: int, y: int)
    requires RowsHaveContent(caps) && IsPodRow(caps, u, x) && IsPodRow(caps, v, y)
    ensures StepKept(caps, keep, u, x, v, y) <==>
            (caps[u].rows[x].raw != caps[v].rows[y].raw <==> LeftOf(caps, keep, u, x) != LeftOf(caps, keep, v, y))
  {
  }

  /** What the file holds of a captured row. */
  lemma RowReads(caps: seq<Capture>, cut: set<ShrinkTarget>, keep: Rule, u: int, x: int, p: History.Pod)
    requires GoodRun(caps) && CutsBy(caps, cut, keep) && Shows(caps, u, x, p)
    ensures FetchRaw(Strip(FullFile(caps), cut), u + 1, PODS, p.ns, p.name) == Some(LeftOf(caps, keep, u, x))
  {
    RowsAreStored(caps, u, x);
    assert caps[u].rows[x] in caps[u].rows;
  }

  /** The i-th row of the timeline is a change exactly when the content that is left changes. */
  lemma ChangeMeans(db: Store.Tables, caps: seq<Capture>, cut: set<ShrinkTarget>, keep: Rule, p: History.Pod,
                    rows: seq<TimelineRow>, i: nat, u: int, x: int, v: int, y: int)
    requires GoodRun(caps) && CutsBy(caps, cut, keep) && HoldsRun(db, caps, cut) && IsTimeline(db, PODS, p.ns, p.name, rows)
    requires 0 < i < |rows| && rows[i - 1].snapshot.id == u + 1 && rows[i].snapshot.id == v + 1
    requires Shows(caps, u, x, p) && Shows(caps, v, y, p)
    ensures IsChange(rows, i) <==> LeftOf(caps, keep, u, x) != LeftOf(caps, keep, v, y)
  {
    RowReads(caps, cut, keep, u, x, p);
    RowReads(caps, cut, keep, v, y, p);
    SameBlobIsSameContent(db, PODS, p.ns, p.name, rows[i - 1], rows[i]);
  }

  /** The rows of the two timelines at place i report the same. */
  ghost predicate SameReport(rows: seq<TimelineRow>, rows': seq<TimelineRow>, i: nat)
    requires i < |rows| && i < |rows'|
  {
    IsChange(rows, i) <==> IsChange(rows', i)
  }

  lemma {:induction false} ChangesDetermined(a: seq<TimelineRow>, b: seq<TimelineRow>, n: nat)
    requires |a| == |b| && n <= |a|
    requires forall i :: 0 <= i < |a| ==> a[i].snapshot == b[i].snapshot
    requires forall i :: 0 <= i < |a| ==> SameReport(a, b, i)
    ensures ChangesAmong(a, n) == ChangesAmong(b, n)
  {
    if n > 0 {
      assert SameReport(a, b, n - 1);
      ChangesDetermined(a, b, n - 1);
    }
  }

  lemma ReportTold(a: seq<TimelineRow>, b: seq<TimelineRow>, i: nat)
    requires |a| == |b| && i < |a| && a[i].snapshot == b[i].snapshot && ChangesAmong(a, |a|) == ChangesAmong(b, |b|)
    requires forall m, n :: 0 <= m < n < |a| ==> a[m].snapshot != a[n].snapshot
    requires forall m, n :: 0 <= m < n < |b| ==> b[m].snapshot != b[n].snapshot
    ensures SameReport(a, b, i)
  {
    ReportedAmong(a, |a|, i);
    ReportedAmong(b, |b|, i);
  }

  /** The reports are the same exactly when the changes are. */
  lemma ReportsTellChanges(a: seq<TimelineRow>, b: seq<TimelineRow>)
    requires |a| == |b| && forall i :: 0 <= i < |a| ==> a[i].snapshot == b[i].snapshot
    requires forall m, n :: 0 <= m < n < |a| ==> a[m].snapshot != a[n].snapshot
    requires forall m, n :: 0 <= m < n < |b| ==> b[m].snapshot != b[n].snapshot
    ensures ChangesAmong(a, |a|) == ChangesAmong(b, |b|) <==> forall i :: 0 <= i < |a| ==> SameReport(a, b, i)
  {
    if ChangesAmong(a, |a|) == ChangesAmong(b, |b|) {
      forall i | 0 <= i < |a|
        ensures SameReport(a, b, i)
      {
        ReportTold(a, b, i);
      }
    }
    if forall i :: 0 <= i < |a| ==> SameReport(a, b, i) {
      ChangesDetermined(a, b, |a|);
    }
  }

  /** Every timeline of the pod on a file of the run lists the same snapshots. */
  lemma TimelinesList(db: Store.Tables, caps: seq<Capture>, cut: set<ShrinkTarget>, p: History.Pod, rows: seq<TimelineRow>,
                      db': Store.Tables, cut': set<ShrinkTarget>, rows': seq<TimelineRow>)
    requires GoodRun(caps) && HoldsRun(db, caps, cut) && HoldsRun(db', caps, cut')
    requires ClockAgrees(Store.View(db)) && IsTimeline(db, PODS, p.ns, p.name, rows) && IsTimeline(db', PODS, p.ns, p.name, rows')
    ensures AreSightings(SnapIds(rows), caps, p) && |rows'| == |rows|
    ensures forall i :: 0 <= i < |rows| ==> rows'[i].snapshot == rows[i].snapshot
  {
    assert Store.View(db').snaps == FullFile(caps).snaps == Store.View(db).snaps;
    TimelineShowsSightings(db, caps, cut, p, rows);
    TimelineShowsSightings(db', caps, cut', p, rows');
    SightingsDetermined(SnapIds(rows), SnapIds(rows'), caps, p);
    forall i | 0 <= i < |rows|
      ensures rows'[i].snapshot == rows[i].snapshot
    {
      SameSnapshot(db, db', rows[i], rows'[i], ResKey(SnapIds(rows)[i], PODS, p.ns, p.name));
    }
  }

  lemma SameSnapshot(db: Store.Tables, db': Store.Tables, row: TimelineRow, row': TimelineRow, k: ResKey)
    requires db'.snaps == db.snaps && row.snapshot.id == row'.snapshot.id == k.snap && IsJoined(db, k, row) && IsJoined(db', k, row')
    ensures row'.snapshot == row.snapshot
  {
  }

  /** The timelines of the pod on the full file and on the stripped one. */
  ghost predicate AreTimelines(db: Store.Tables, db': Store.Tables, caps: seq<Capture>, cut: set<ShrinkTarget>, keep: Rule, p: History.Pod,
                               rows: seq<TimelineRow>, rows': seq<TimelineRow>) {
    && GoodRun(caps) && RowsHaveContent(caps) && CutsBy(caps, cut, keep)
    && HoldsRun(db, caps, {}) && HoldsRun(db', caps, cut) && ClockAgrees(Store.View(db))
    && IsTimeline(db, PODS, p.ns, p.name, rows) && IsTimeline(db', PODS, p.ns, p.name, rows')
  }

  lemma StepDecides(db: Store.Tables, db': Store.Tables, caps: seq<Capture>, cut: set<ShrinkTarget>, keep: Rule, p: History.Pod,
                    rows: seq<TimelineRow>, rows': seq<TimelineRow>, i: nat, u: int, x: int, v: int, y: int)
    requires AreTimelines(db, db', caps, cut, keep, p, rows, rows')
    requires 0 < i < |rows| == |rows'| && rows[i - 1].snapshot.id == rows'[i - 1].snapshot.id == u + 1
    requires rows[i].snapshot.id == rows'[i].snapshot.id == v + 1
    requires Shows(caps, u, x, p) && Shows(caps, v, y, p)
    ensures SameReport(rows, rows', i) <==> StepKept(caps, keep, u, x, v, y)
  {
    var all: Rule := (a: int, b: int) => true;
    ChangeMeans(db, caps, {}, all, p, rows, i, u, x, v, y);
    ChangeMeans(db', caps, cut, keep, p, rows', i, u, x, v, y);
    StepKeptMeans(caps, keep, u, x, v, y);
  }

  lemma StepOf(ids: seq<nat>, caps: seq<Capture>, p: History.Pod, i: nat) returns (u: int, x: int, v: int, y: int)
    requires AreSightings(ids, caps, p) && 0 < i < |ids|
    ensures ids[i - 1] == u + 1 && ids[i] == v + 1 && Shows(caps, u, x, p) && Shows(caps, v, y, p) && LastShown(caps, v, u, p)
  {
    NeighboursAreLastShown(ids, caps, p, i);
    u, v := ids[i - 1] as int - 1, ids[i] as int - 1;
    x :| Shows(caps, u, x, p);
    y :| Shows(caps, v, y, p);
  }

  lemma KeptStepReports(db: Store.Tables, db': Store.Tables, caps: seq<Capture>, cut: set<ShrinkTarget>, keep: Rule, p: History.Pod,
                        rows: seq<TimelineRow>, rows': seq<TimelineRow>, i: nat)
    requires AreTimelines(db, db', caps, cut, keep, p, rows, rows')
    requires 0 < i < |rows| && TimelineKept(caps, keep, p)
    ensures |rows'| == |rows| && SameReport(rows, rows', i)
  {
    TimelinesList(db, caps, {}, p, rows, db', cut, rows');
    var u, x, v, y := StepOf(SnapIds(rows), caps, p, i);
    StepDecides(db, db', caps, cut, keep, p, rows, rows', i, u, x, v, y);
  }

  lemma ReportedStepIsKept(db: Store.Tables, db': Store.Tables, caps: seq<Capture>, cut: set<ShrinkTarget>, keep: Rule, p: History.Pod,
                           rows: seq<TimelineRow>, rows': seq<TimelineRow>, i: nat, u: int, x: int, v: int, y: int)
    requires AreTimelines(db, db', caps, cut, keep, p, rows, rows') && 0 < i < |rows|
    requires rows[i - 1].snapshot.id == u + 1 && rows[i].snapshot.id == v + 1 && Shows(caps, u, x, p) && Shows(caps, v, y, p)
    ensures |rows'| == |rows| && (SameReport(rows, rows', i) ==> StepKept(caps, keep, u, x, v, y))
  {
    TimelinesList(db, caps, {}, p, rows, db', cut, rows');
    StepDecides(db, db', caps, cut, keep, p, rows, rows', i, u, x, v, y);
  }

  /** The change timeline of a stripped file is that of the full file exactly when no step of it goes wrong:
      an emptied row beside a kept one must stand for a change, and two emptied rows for none. */
  lemma TimelineAfterStripping(db: Store.Tables, db': Store.Tables, caps: seq<Capture>, cut: set<ShrinkTarget>, keep: Rule, p: History.Pod,
                               rows: seq<TimelineRow>, rows': seq<TimelineRow>)
    requires AreTimelines(db, db', caps, cut, keep, p, rows, rows')
    ensures ChangesAmong(rows, |rows|) == ChangesAmong(rows', |rows'|) <==> TimelineKept(caps, keep, p)
  {
    TimelinesList(db, caps, {}, p, rows, db', cut, rows');
    ReportsTellChanges(rows, rows');
    if TimelineKept(caps, keep, p) {
      KeptTimelineReports(db, db', caps, cut, keep, p, rows, rows');
    }
    if forall i :: 0 <= i < |rows| ==> SameReport(rows, rows', i) {
      ReportsKeepTimeline(db, db', caps, cut, keep, p, rows, rows');
    }
  }

  lemma KeptTimelineReports(db: Store.Tables, db': Store.Tables, caps: seq<Capture>, cut: set<ShrinkTarget>, keep: Rule, p: History.Pod,
                            rows: seq<TimelineRow>, rows': seq<TimelineRow>)
    requires AreTimelines(db, db', caps, cut, keep, p, rows, rows') && |rows'| == |rows| && TimelineKept(caps, keep, p)
    ensures forall i :: 0 <= i < |rows| ==> SameReport(rows, rows', i)
  {
    forall i | 0 < i < |rows|
      ensures SameReport(rows, rows', i)
    {
      KeptStepReports(db, db', caps, cut, keep, p, rows, rows', i);
    }
  }

  lemma ReportsKeepTimeline(db: Store.Tables, db': Store.Tables, caps: seq<Capture>, cut: set<ShrinkTarget>, keep: Rule, p: History.Pod,
                            rows: seq<TimelineRow>, rows': seq<TimelineRow>)
    requires AreTimelines(db, db', caps, cut, keep, p, rows, rows') && AreSightings(SnapIds(rows), caps, p) && |rows'| == |rows|
    requires forall i :: 0 <= i < |rows| ==> SameReport(rows, rows', i)
    ensures TimelineKept(caps, keep, p)
  {
    forall u, x, v, y | Shows(caps, u, x, p) && Shows(caps, v, y, p) && LastShown(caps, v, u, p)
      ensures StepKept(caps, keep, u, x, v, y)
    {
      var i := LastShownAreNeighbours(SnapIds(rows), caps, p, u, v);
      ReportedStepIsKept(db, db', caps, cut, keep, p, rows, rows', i, u, x, v, y);
    }
  }

  // ---- A change that is none ----

  /** A pod that is healthy and unchanged over two captures. */
  function SteadyPod(): seq<Capture> {
    [OnePod(0, "a", 1, "Running"), OnePod(1, "a", 1, "Running")]
  }

  lemma SteadyPodIsGood(caps: seq<Capture>)
    requires caps == SteadyPod()
    ensures GoodRun(caps) && RowsHaveContent(caps)
  {
    OnePodIsGood(0, "a", 1, "Running");
    OnePodIsGood(1, "a", 1, "Running");
  }

  lemma SteadyPodShown(caps: seq<Capture>, p: History.Pod)
    requires caps == SteadyPod() && p == History.Pod("shop", "web-0")
    ensures Shows(caps, 0, 0, p) && Shows(caps, 1, 0, p) && LastShown(caps, 1, 0, p) && caps[0].rows[0].raw == caps[1].rows[0].raw
  {
    assert Shows(caps, 0, 0, p);
  }

  lemma SteadyPodHealth(caps: seq<Capture>)
    requires caps == SteadyPod()
    ensures AllHealthyAt(caps, 0) && AllHealthyAt(caps, 1) && AllHealthyAt(caps, 2)
  {
    ReplacedPodHealth();
  }

  lemma SteadyPodKept(caps: seq<Capture>, p: History.Pod)
    requires caps == SteadyPod() && p == History.Pod("shop", "web-0")
    ensures KeptOffline(caps, 0, p) && !KeptOffline(caps, 1, p)
  {
    SteadyPodHealth(caps);
    SteadyPodShown(caps, p);
    FirstAndHealthy(caps, p);
    SeenAndHealthy(caps, 1, 0, 0, p);
  }

  lemma OneOfTwoStripped(caps: seq<Capture>, keep: Rule, u: int, x: int, v: int, y: int, p: History.Pod)
    requires Shows(caps, u, x, p) && Shows(caps, v, y, p) && LastShown(caps, v, u, p)
    requires keep(u, x) && !keep(v, y) && caps[u].rows[x].raw == caps[v].rows[y].raw
    ensures !TimelineKept(caps, keep, p)
  {
    assert !StepKept(caps, keep, u, x, v, y);
  }

  /** Its shrunk file reports a change. */
  lemma SteadyPodSeemsToChange(caps: seq<Capture>, p: History.Pod)
    requires caps == SteadyPod() && p == History.Pod("shop", "web-0")
    ensures GoodRun(caps) && RowsHaveContent(caps) && !TimelineKept(caps, ByShrinker(caps), p)
  {
    SteadyPodIsGood(caps);
    SteadyPodShown(caps, p);
    SteadyPodKept(caps, p);
    OneOfTwoStripped(caps, ByShrinker(caps), 0, 0, 1, 0, p);
  }
}
