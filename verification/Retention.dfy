/**
 Stripping while recording and stripping afterwards meet. A run is recorded twice, in full and
 incidents-only; snapshot i of either file has id i + 1. The recorder tells pods apart by UID and
 the shrinker by name. The pairs the recorder strips lie within what shrinking strips of the full
 file, and shrinking either file gives the same result, exactly when no name and no UID is reused at
 the wrong moment.
 */
module Retention {
  import opened Model
  import opened Health
  import opened History
  import opened FileView
  import opened Reader
  import opened Snapshotter
  import opened Runs
  import Pieces

  // ---- The histories of a run ----

  function RunIds(caps: seq<Capture>): (ids: seq<nat>)
    ensures |ids| == |caps| && forall i :: 0 <= i < |caps| ==> ids[i] == i + 1
  {
    seq(|caps|, i => i + 1)
  }

  predicate IsPodRow(caps: seq<Capture>, i: int, j: int) {
    0 <= i < |caps| && 0 <= j < |caps[i].rows| && caps[i].rows[j].kind == PODS
  }

  function PodAt(caps: seq<Capture>, i: int, j: int): Pod
    requires IsPodRow(caps, i, j)
  {
    Pod(caps[i].rows[j].ns, caps[i].rows[j].name)
  }

  function KeyOfRow(caps: seq<Capture>, i: int, j: int): string
    requires IsPodRow(caps, i, j)
  {
    PodKey(caps[i].rows[j])
  }

  ghost predicate Shows(caps: seq<Capture>, i: int, j: int, p: Pod) {
    IsPodRow(caps, i, j) && PodAt(caps, i, j) == p
  }

  /** The history tells what the captures show of the pod. */
  ghost predicate Tells(h: History, caps: seq<Capture>, p: Pod) {
    && (forall i, j :: Shows(caps, i, j, p) ==> i in h && h[i] == CellsHealth(caps[i].rows[j].cells))
    && (forall i :: i in h ==> exists j :: Shows(caps, i, j, p))
  }

  ghost function RunHistory(caps: seq<Capture>, p: Pod): History {
    HistoryOf(FullFile(caps), RunIds(caps), p)
  }

  lemma RunIsListed(caps: seq<Capture>)
    requires GoodRun(caps)
    ensures Lists(RunIds(caps), FullFile(caps))
  {
    forall k | k in FullFile(caps).resources
      ensures k.snap in RunIds(caps)
    {
      var i, j := StoredAreRows(caps, k);
      assert RunIds(caps)[i] == k.snap;
    }
  }

  /** The snapshot listing of a run. */
  function RunListing(caps: seq<Capture>): (snapshots: seq<SnapshotInfo>)
    ensures Ids(snapshots) == RunIds(caps)
  {
    seq(|caps|, i requires 0 <= i < |caps| => SnapshotInfo(i + 1, caps[i].ts))
  }

  function Timestamps(caps: seq<Capture>): map<nat, int> {
    map s | s in RunIds(caps) :: caps[s - 1].ts
  }

  lemma OneMoreTimestamp(caps: seq<Capture>, c: Capture, next: nat)
    requires next == |caps| + 1
    ensures Timestamps(caps + [c]) == Timestamps(caps)[next := c.ts]
  {
    assert RunIds(caps + [c]) == RunIds(caps) + [next];
  }

  lemma AddedTimestamp(f: File, c: Capture)
    requires WellKeyed(c)
    ensures Written(f, c).snaps == f.snaps[f.nextSnap := c.ts]
  {
  }

  lemma {:induction false} RunTimestamps(caps: seq<Capture>)
    requires GoodRun(caps)
    ensures FullFile(caps).snaps == Timestamps(caps)
  {
    if caps != [] {
      var front, c := Pieces.Front(caps), Pieces.Last(caps);
      RunTimestamps(front);
      FullIdsHandedOut(front);
      GoodFront(caps);
      Pieces.FrontLast(caps);
      OneMoreTimestamp(front, c, FullFile(front).nextSnap);
      AddedTimestamp(FullFile(front), c);
    }
  }

  /** The listing is what either file lists, as long as the clock runs forward. */
  lemma RunListingIsListing(caps: seq<Capture>)
    requires GoodRun(caps) && forall i, j :: 0 <= i < j < |caps| ==> caps[i].ts < caps[j].ts
    ensures IsSnapshotListing(FullFile(caps), RunListing(caps)) && ClockAgrees(FullFile(caps))
    ensures IsSnapshotListing(IncidentsOnlyFile(caps), RunListing(caps)) && ClockAgrees(IncidentsOnlyFile(caps))
  {
    RunTimestamps(caps);
    IncidentsOnlyIsStrippedFull(caps);
    ListingOfRun(FullFile(caps), caps);
    ListingOfRun(IncidentsOnlyFile(caps), caps);
    ClockOfRun(FullFile(caps), caps);
    ClockOfRun(IncidentsOnlyFile(caps), caps);
  }

  lemma ListingOfRun(f: File, caps: seq<Capture>)
    requires f.snaps == Timestamps(caps) && forall i, j :: 0 <= i < j < |caps| ==> caps[i].ts < caps[j].ts
    ensures IsSnapshotListing(f, RunListing(caps))
  {
    forall i | 0 <= i < |caps|
      ensures RunIds(caps)[i] in f.snaps && f.snaps[RunIds(caps)[i]] == caps[i].ts
    {
    }
  }

  lemma ClockOfRun(f: File, caps: seq<Capture>)
    requires f.snaps == Timestamps(caps) && forall i, j :: 0 <= i < j < |caps| ==> caps[i].ts < caps[j].ts
    ensures ClockAgrees(f)
  {
    ListedIds(caps);
    forall a, b | a in f.snaps && b in f.snaps && a < b
      ensures f.snaps[a] < f.snaps[b]
    {
      assert caps[a - 1].ts < caps[b - 1].ts;
    }
  }

  lemma ListedIds(caps: seq<Capture>)
    ensures forall s :: s in RunIds(caps) <==> 1 <= s <= |caps|
  {
    forall s: nat | 1 <= s <= |caps|
      ensures s in RunIds(caps)
    {
      assert RunIds(caps)[s - 1] == s;
    }
  }

  lemma HistoryEntry(caps: seq<Capture>, p: Pod, i: int, j: int)
    requires GoodRun(caps) && Shows(caps, i, j, p)
    ensures i in RunHistory(caps, p) && RunHistory(caps, p)[i] == CellsHealth(caps[i].rows[j].cells)
  {
    RowsAreStored(caps, i, j);
    assert KeyAt(RunIds(caps), p, i) == RowKey(i + 1, caps[i].rows[j]);
  }

  lemma HistorySource(caps: seq<Capture>, p: Pod, i: int) returns (j: int)
    requires GoodRun(caps) && i in RunHistory(caps, p)
    ensures Shows(caps, i, j, p)
  {
    HistoryRow(caps, p, i);
    j := RowShown(caps, p, i);
  }

  lemma HistoryRow(caps: seq<Capture>, p: Pod, i: int)
    requires i in RunHistory(caps, p)
    ensures 0 <= i && ResKey(i + 1, PODS, p.ns, p.name) in FullFile(caps).resources
  {
    KeyOfEntry(FullFile(caps), RunIds(caps), p, i);
  }

  lemma KeyOfEntry(f: File, ids: seq<nat>, p: Pod, i: int)
    requires i in HistoryOf(f, ids, p)
    ensures 0 <= i < |ids| && KeyAt(ids, p, i) in f.resources
  {
  }

  lemma RowShown(caps: seq<Capture>, p: Pod, i: nat) returns (j: int)
    requires GoodRun(caps) && ResKey(i + 1, PODS, p.ns, p.name) in FullFile(caps).resources
    ensures Shows(caps, i, j, p)
  {
    var i';
    i', j := StoredAreRows(caps, ResKey(i + 1, PODS, p.ns, p.name));
  }

  lemma RunHistoryTells(caps: seq<Capture>, p: Pod)
    requires GoodRun(caps)
    ensures Tells(RunHistory(caps, p), caps, p)
  {
    forall i, j | Shows(caps, i, j, p)
      ensures i in RunHistory(caps, p) && RunHistory(caps, p)[i] == CellsHealth(caps[i].rows[j].cells)
    {
      HistoryEntry(caps, p, i, j);
    }
    forall i | i in RunHistory(caps, p)
      ensures exists j :: Shows(caps, i, j, p)
    {
      var j := HistorySource(caps, p, i);
    }
  }

  /** The primary key admits one row per pod and snapshot. */
  ghost predicate OneRowPerPod(caps: seq<Capture>) {
    forall i, j, m :: IsPodRow(caps, i, j) && IsPodRow(caps, i, m) && j != m ==> PodAt(caps, i, j) != PodAt(caps, i, m)
  }

  lemma GoodRunsHaveOneRowPerPod(caps: seq<Capture>)
    requires GoodRun(caps)
    ensures OneRowPerPod(caps)
  {
    forall i, j, m | IsPodRow(caps, i, j) && IsPodRow(caps, i, m) && j != m
      ensures PodAt(caps, i, j) != PodAt(caps, i, m)
    {
      RowKeysDiffer(caps[i], j, m);
    }
  }

  // ---- What can go wrong ----

  /** No two pods share a UID. */
  ghost predicate KeysIdentify(caps: seq<Capture>) {
    forall i, j, i', j' :: IsPodRow(caps, i, j) && IsPodRow(caps, i', j') && KeyOfRow(caps, i, j) == KeyOfRow(caps, i', j') ==>
      PodAt(caps, i, j) == PodAt(caps, i', j')
  }

  /** And no name is reused. */
  ghost predicate NamesIdentify(caps: seq<Capture>) {
    forall i, j, i', j' :: IsPodRow(caps, i, j) && IsPodRow(caps, i', j') && PodAt(caps, i, j) == PodAt(caps, i', j') ==>
      KeyOfRow(caps, i, j) == KeyOfRow(caps, i', j')
  }

  /** One capture before or after row (i, j), its name belongs to another pod, and that one is unhealthy. */
  ghost predicate BesideBadNamesake(caps: seq<Capture>, i: int, j: int, i': int, j': int) {
    && IsPodRow(caps, i, j) && IsPodRow(caps, i', j') && (i' == i - 1 || i' == i + 1)
    && PodAt(caps, i', j') == PodAt(caps, i, j) && KeyOfRow(caps, i', j') != KeyOfRow(caps, i, j)
    && RowUnhealthy(caps[i'].rows[j'])
  }

  /** The recorder has a reason of its own to keep the row: the pod itself is unhealthy close by, or
      was never shown before. */
  ghost predicate OwnReason(caps: seq<Capture>, i: int, j: int)
    requires IsPodRow(caps, i, j)
  {
    var key := KeyOfRow(caps, i, j);
    ShownUnhealthy(caps, i - 1, key) || ShownUnhealthy(caps, i, key) || ShownUnhealthy(caps, i + 1, key) ||
    !ShownEarlier(caps, i, j, key)
  }

  /** Wherever a bad namesake is close by, the row is kept for a reason of its own. */
  ghost predicate NamesakesHarmless(caps: seq<Capture>) {
    forall i, j, i', j' :: BesideBadNamesake(caps, i, j, i', j') ==> OwnReason(caps, i, j)
  }

  ghost predicate NameShownEarlier(caps: seq<Capture>, i: int, p: Pod) {
    exists i', j' :: i' < i && Shows(caps, i', j', p)
  }

  ghost predicate NameUnhealthyOnce(caps: seq<Capture>, p: Pod) {
    exists i', j' :: Shows(caps, i', j', p) && RowUnhealthy(caps[i'].rows[j'])
  }

  ghost predicate NameUnhealthyAt(caps: seq<Capture>, u: int, p: Pod) {
    exists j :: Shows(caps, u, j, p) && RowUnhealthy(caps[u].rows[j])
  }

  /** What shrinking keeps of a name at capture i: the ±1 window, or the first sighting of a name that is
      never unhealthy. */
  ghost predicate KeptOffline(caps: seq<Capture>, i: int, p: Pod) {
    || NameUnhealthyAt(caps, i - 1, p) || NameUnhealthyAt(caps, i, p) || NameUnhealthyAt(caps, i + 1, p)
    || (!NameShownEarlier(caps, i, p) && !NameUnhealthyOnce(caps, p))
  }

  /** A row passed over because its UID was shown before was also shown before under its own name, or
      that name is unhealthy in some capture. */
  ghost predicate SharersHarmless(caps: seq<Capture>) {
    forall i, j :: IsPodRow(caps, i, j) && !OwnReason(caps, i, j) ==>
      NameShownEarlier(caps, i, PodAt(caps, i, j)) || NameUnhealthyOnce(caps, PodAt(caps, i, j))
  }

  /** Names and UIDs are reused, if at all, where it does no harm. */
  ghost predicate ReuseHarmless(caps: seq<Capture>) {
    NamesakesHarmless(caps) && SharersHarmless(caps)
  }

  // ---- One row: the recorder's verdict against the shrinker's ----

  lemma UnhealthyShown(caps: seq<Capture>, p: Pod, h: History, i: int, j: int)
    requires Tells(h, caps, p) && Shows(caps, i, j, p) && RowUnhealthy(caps[i].rows[j])
    ensures Unhealthy(h, i)
  {
    RecorderAndReaderAgree(caps[i].rows[j].cells);
  }

  lemma UnhealthySource(caps: seq<Capture>, p: Pod, h: History, i: int) returns (j: int)
    requires Tells(h, caps, p) && Unhealthy(h, i)
    ensures Shows(caps, i, j, p) && RowUnhealthy(caps[i].rows[j])
  {
    j :| Shows(caps, i, j, p);
    RecorderAndReaderAgree(caps[i].rows[j].cells);
  }

  /** A pod shown unhealthy under its key is unhealthy under its name. */
  lemma KeyUnhealthy(caps: seq<Capture>, i: int, j: int, h: History, u: int)
    requires KeysIdentify(caps) && IsPodRow(caps, i, j) && Tells(h, caps, PodAt(caps, i, j))
    requires ShownUnhealthy(caps, u, KeyOfRow(caps, i, j))
    ensures Unhealthy(h, u)
  {
    var m :| 0 <= m < |caps[u].rows| && RowUnhealthy(caps[u].rows[m]) && PodKey(caps[u].rows[m]) == KeyOfRow(caps, i, j);
    assert IsPodRow(caps, u, m);
    UnhealthyShown(caps, PodAt(caps, i, j), h, u, m);
  }

  /** Unhealthy under its name close by: either the pod itself is, or a namesake. */
  lemma NameUnhealthy(caps: seq<Capture>, i: int, j: int, h: History, u: int)
    requires OneRowPerPod(caps) && IsPodRow(caps, i, j) && Tells(h, caps, PodAt(caps, i, j)) && Unhealthy(h, u) && i - 1 <= u <= i + 1
    ensures ShownUnhealthy(caps, u, KeyOfRow(caps, i, j)) || exists m :: BesideBadNamesake(caps, i, j, u, m)
  {
    var m := UnhealthySource(caps, PodAt(caps, i, j), h, u);
    if KeyOfRow(caps, u, m) == KeyOfRow(caps, i, j) {
      assert RowUnhealthy(caps[u].rows[m]) && PodKey(caps[u].rows[m]) == KeyOfRow(caps, i, j);
    } else {
      assert BesideBadNamesake(caps, i, j, u, m);
    }
  }

  /** A pod shown before under its key was observed before under its name. */
  lemma EarlierRow(caps: seq<Capture>, i: int, j: int) returns (i': int, j': int)
    requires OneRowPerPod(caps) && KeysIdentify(caps) && IsPodRow(caps, i, j)
    requires ShownEarlier(caps, i, j, KeyOfRow(caps, i, j))
    ensures i' < i && Shows(caps, i', j', PodAt(caps, i, j))
  {
    var key := KeyOfRow(caps, i, j);
    forall m | 0 <= m < j && caps[i].rows[m].kind == PODS
      ensures PodKey(caps[i].rows[m]) != key
    {
      assert IsPodRow(caps, i, m) && PodAt(caps, i, m) != PodAt(caps, i, j);
      assert KeyOfRow(caps, i, m) == PodKey(caps[i].rows[m]);
    }
    i', j' :| 0 <= i' < i && 0 <= j' < |caps[i'].rows| && caps[i'].rows[j'].kind == PODS && PodKey(caps[i'].rows[j']) == key;
    assert IsPodRow(caps, i', j') && KeyOfRow(caps, i', j') == key;
  }

  lemma NotFirstIsEarlier(caps: seq<Capture>, i: int, j: int, h: History, i': int)
    requires NamesIdentify(caps) && IsPodRow(caps, i, j) && Tells(h, caps, PodAt(caps, i, j))
    requires i' in h && i' < i
    ensures ShownEarlier(caps, i, j, KeyOfRow(caps, i, j))
  {
    var j' :| Shows(caps, i', j', PodAt(caps, i, j));
    assert caps[i'].rows[j'].kind == PODS && PodKey(caps[i'].rows[j']) == KeyOfRow(caps, i', j');
  }

  lemma EarlierIsNotFirst(caps: seq<Capture>, i: int, j: int, h: History)
    requires OneRowPerPod(caps) && KeysIdentify(caps) && IsPodRow(caps, i, j) && Tells(h, caps, PodAt(caps, i, j))
    requires ShownEarlier(caps, i, j, KeyOfRow(caps, i, j))
    ensures !IsFirst(h, i)
  {
    var i', j' := EarlierRow(caps, i, j);
    assert i' in h;
  }

  /** What the row conditions say of the history. */
  lemma NamesInHistory(caps: seq<Capture>, i: int, h: History, p: Pod)
    requires Tells(h, caps, p)
    ensures NameShownEarlier(caps, i, p) <==> exists i' :: i' in h && i' < i
    ensures NameUnhealthyOnce(caps, p) <==> EverUnhealthy(h)
  {
    if i' :| i' in h && i' < i {
      var j' :| Shows(caps, i', j', p);
    }
    if i', j' :| Shows(caps, i', j', p) && RowUnhealthy(caps[i'].rows[j']) {
      UnhealthyShown(caps, p, h, i', j');
    }
    if EverUnhealthy(h) {
      var u :| u in h && Unhealthy(h, u);
      var m := UnhealthySource(caps, p, h, u);
    }
  }

  /** The shrinker keeps a row that the recorder strips only beside a bad namesake. */
  lemma WindowNeedsNamesake(caps: seq<Capture>, i: int, j: int, h: History) returns (i': int, j': int)
    requires OneRowPerPod(caps) && IsPodRow(caps, i, j) && Tells(h, caps, PodAt(caps, i, j))
    requires InWindow(h, i) && !OwnReason(caps, i, j)
    ensures BesideBadNamesake(caps, i, j, i', j')
  {
    i' := if Unhealthy(h, i - 1) then i - 1 else if Unhealthy(h, i) then i else i + 1;
    NameUnhealthy(caps, i, j, h, i');
    j' :| BesideBadNamesake(caps, i, j, i', j');
  }

  lemma NamesakeOpensWindow(caps: seq<Capture>, i: int, j: int, h: History, i': int, j': int)
    requires BesideBadNamesake(caps, i, j, i', j') && Tells(h, caps, PodAt(caps, i, j))
    ensures Important(h, i)
  {
    var p := PodAt(caps, i, j);
    UnhealthyShown(caps, p, h, i', j');
    WindowOpened(h, i, i');
  }

  lemma WindowOpened(h: History, i: int, u: int)
    requires Unhealthy(h, u) && i - 1 <= u <= i + 1
    ensures InWindow(h, i)
  {
  }

  lemma KeyInWindow(caps: seq<Capture>, i: int, j: int, h: History, u: int)
    requires KeysIdentify(caps) && IsPodRow(caps, i, j) && Tells(h, caps, PodAt(caps, i, j))
    requires ShownUnhealthy(caps, u, KeyOfRow(caps, i, j)) && (u == i - 1 || u == i || u == i + 1)
    ensures InWindow(h, i)
  {
    KeyUnhealthy(caps, i, j, h, u);
    WindowOpened(h, i, u);
  }

  /** The recorder keeps what the shrinker strips only at a pod's first sighting. */
  lemma OnlyFirstSightings(caps: seq<Capture>, i: int, j: int, h: History)
    requires KeysIdentify(caps) && IsPodRow(caps, i, j) && Tells(h, caps, PodAt(caps, i, j))
    requires OwnReason(caps, i, j) && !InWindow(h, i)
    ensures !ShownEarlier(caps, i, j, KeyOfRow(caps, i, j))
  {
    var key := KeyOfRow(caps, i, j);
    if ShownUnhealthy(caps, i - 1, key) {
      KeyInWindow(caps, i, j, h, i - 1);
    }
    if ShownUnhealthy(caps, i, key) {
      KeyInWindow(caps, i, j, h, i);
    }
    if ShownUnhealthy(caps, i + 1, key) {
      KeyInWindow(caps, i, j, h, i + 1);
    }
  }

  // ---- The verdicts over whole files ----

  function RowTarget(caps: seq<Capture>, i: int, j: int): ShrinkTarget
    requires IsPodRow(caps, i, j)
  {
    ShrinkTarget(i + 1, caps[i].rows[j].ns, caps[i].rows[j].name)
  }

  /** What the recorder strips. */
  function Online(caps: seq<Capture>): set<ShrinkTarget> {
    StrippedOnline(caps, |caps|, 0)
  }

  /** What shrinking strips of the full file. */
  ghost function Offline(caps: seq<Capture>): set<ShrinkTarget> {
    TargetSet(FullFile(caps), RunIds(caps))
  }

  lemma OnlineVerdict(caps: seq<Capture>, i: int, j: int)
    requires GoodRun(caps) && IsPodRow(caps, i, j)
    ensures RowTarget(caps, i, j) in Online(caps) <==> !OwnReason(caps, i, j)
  {
    RunVerdict(caps, i, j, 0);
    KeptOnlineMeans(caps, i, j);
  }

  lemma OnlineSource(caps: seq<Capture>, t: ShrinkTarget) returns (i: int, j: int)
    requires GoodRun(caps) && t in Online(caps)
    ensures IsPodRow(caps, i, j) && RowTarget(caps, i, j) == t && !OwnReason(caps, i, j)
  {
    assert IsCutOnline(caps, |caps|, 0, t);
    i, j := RunSource(caps, 0, t);
    OnlineVerdict(caps, i, j);
  }

  lemma NameUnhealthyMeans(caps: seq<Capture>, u: int, h: History, p: Pod)
    requires Tells(h, caps, p)
    ensures NameUnhealthyAt(caps, u, p) <==> Unhealthy(h, u)
  {
    if j :| Shows(caps, u, j, p) && RowUnhealthy(caps[u].rows[j]) {
      UnhealthyShown(caps, p, h, u, j);
    }
    if Unhealthy(h, u) {
      var j := UnhealthySource(caps, p, h, u);
    }
  }

  /** The shrinker's rule, spelled out over the captures. */
  lemma KeptOfflineMeans(caps: seq<Capture>, i: int, h: History, p: Pod)
    requires Tells(h, caps, p) && i in h
    ensures Important(h, i) <==> KeptOffline(caps, i, p)
  {
    NameUnhealthyMeans(caps, i - 1, h, p);
    NameUnhealthyMeans(caps, i, h, p);
    NameUnhealthyMeans(caps, i + 1, h, p);
    NamesInHistory(caps, i, h, p);
  }

  lemma OfflineRule(caps: seq<Capture>, i: int, j: int)
    requires GoodRun(caps) && IsPodRow(caps, i, j)
    ensures RowTarget(caps, i, j) in Offline(caps) <==> !KeptOffline(caps, i, PodAt(caps, i, j))
  {
    var p := PodAt(caps, i, j);
    RunHistoryTells(caps, p);
    assert Shows(caps, i, j, p);
    OfflineVerdict(caps, i, j);
    KeptOfflineMeans(caps, i, RunHistory(caps, p), p);
  }

  lemma OfflineVerdict(caps: seq<Capture>, i: int, j: int)
    requires GoodRun(caps) && IsPodRow(caps, i, j)
    ensures RowTarget(caps, i, j) in Offline(caps) <==> !Important(RunHistory(caps, PodAt(caps, i, j)), i)
  {
    RunIsListed(caps);
    RowsAreStored(caps, i, j);
    PositionOf(RunIds(caps), i);
    TargetSetMembers(FullFile(caps), RunIds(caps), RowKey(i + 1, caps[i].rows[j]));
  }

  /** The recorder strips only what shrinking would strip, exactly when reuse does no harm. */
  lemma OnlineWithinOffline(caps: seq<Capture>)
    requires GoodRun(caps)
    ensures Online(caps) <= Offline(caps) <==> ReuseHarmless(caps)
  {
    GoodRunsHaveOneRowPerPod(caps);
    if ReuseHarmless(caps) {
      forall t | t in Online(caps)
        ensures t in Offline(caps)
      {
        var i, j := OnlineSource(caps, t);
        HarmlessVerdict(caps, i, j);
      }
    } else {
      var i, j := HarmedVerdict(caps);
    }
  }

  lemma HarmlessVerdict(caps: seq<Capture>, i: int, j: int)
    requires GoodRun(caps) && OneRowPerPod(caps) && ReuseHarmless(caps)
    requires IsPodRow(caps, i, j) && !OwnReason(caps, i, j)
    ensures RowTarget(caps, i, j) in Offline(caps)
  {
    var p := PodAt(caps, i, j);
    var h := RunHistory(caps, p);
    RunHistoryTells(caps, p);
    OfflineVerdict(caps, i, j);
    NamesInHistory(caps, i, h, p);
    if InWindow(h, i) {
      var i', j' := WindowNeedsNamesake(caps, i, j, h);
    }
  }

  /** Where reuse does harm, the recorder strips a row that shrinking keeps. */
  lemma HarmedVerdict(caps: seq<Capture>) returns (i: int, j: int)
    requires GoodRun(caps) && !ReuseHarmless(caps)
    ensures IsPodRow(caps, i, j) && RowTarget(caps, i, j) in Online(caps) && RowTarget(caps, i, j) !in Offline(caps)
  {
    if !NamesakesHarmless(caps) {
      var i', j';
      i, j, i', j' :| BesideBadNamesake(caps, i, j, i', j') && !OwnReason(caps, i, j);
      RunHistoryTells(caps, PodAt(caps, i, j));
      NamesakeOpensWindow(caps, i, j, RunHistory(caps, PodAt(caps, i, j)), i', j');
    } else {
      i, j :| IsPodRow(caps, i, j) && !OwnReason(caps, i, j) &&
              !NameShownEarlier(caps, i, PodAt(caps, i, j)) && !NameUnhealthyOnce(caps, PodAt(caps, i, j));
      RunHistoryTells(caps, PodAt(caps, i, j));
      OnlySightingIsKept(caps, i, j, RunHistory(caps, PodAt(caps, i, j)));
    }
    OnlineVerdict(caps, i, j);
    OfflineVerdict(caps, i, j);
  }

  lemma OnlySightingIsKept(caps: seq<Capture>, i: int, j: int, h: History)
    requires IsPodRow(caps, i, j) && Tells(h, caps, PodAt(caps, i, j))
    requires !NameShownEarlier(caps, i, PodAt(caps, i, j)) && !NameUnhealthyOnce(caps, PodAt(caps, i, j))
    ensures Important(h, i)
  {
    NamesInHistory(caps, i, h, PodAt(caps, i, j));
    assert Shows(caps, i, j, PodAt(caps, i, j));
  }

  /** When names and UIDs go together, the rows that only the recorder keeps are exactly the first
      sightings of pods whose incident comes later. */
  lemma ExtraRowsAreFirstSightings(caps: seq<Capture>, i: int, j: int)
    requires GoodRun(caps) && KeysIdentify(caps) && NamesIdentify(caps) && IsPodRow(caps, i, j)
    ensures var h := RunHistory(caps, PodAt(caps, i, j));
            RowTarget(caps, i, j) in Offline(caps) && RowTarget(caps, i, j) !in Online(caps) <==>
            IsFirst(h, i) && EverUnhealthy(h) && !InWindow(h, i)
  {
    var h := RunHistory(caps, PodAt(caps, i, j));
    GoodRunsHaveOneRowPerPod(caps);
    RunHistoryTells(caps, PodAt(caps, i, j));
    OnlineVerdict(caps, i, j);
    OfflineVerdict(caps, i, j);
    FirstMeans(caps, i, j, h);
    if OwnReason(caps, i, j) && !InWindow(h, i) {
      OnlyFirstSightings(caps, i, j, h);
    }
  }

  lemma FirstMeans(caps: seq<Capture>, i: int, j: int, h: History)
    requires OneRowPerPod(caps) && KeysIdentify(caps) && NamesIdentify(caps) && IsPodRow(caps, i, j) && Tells(h, caps, PodAt(caps, i, j))
    ensures IsFirst(h, i) <==> !ShownEarlier(caps, i, j, KeyOfRow(caps, i, j))
  {
    assert Shows(caps, i, j, PodAt(caps, i, j));
    if ShownEarlier(caps, i, j, KeyOfRow(caps, i, j)) {
      EarlierIsNotFirst(caps, i, j, h);
    } else if !IsFirst(h, i) {
      var i' :| i' in h && i' < i;
      NotFirstIsEarlier(caps, i, j, h, i');
    }
  }

  // ---- Recording and shrinking commute ----

  lemma ModesListed(caps: seq<Capture>)
    requires GoodRun(caps)
    ensures Lists(RunIds(caps), FullFile(caps)) && Lists(RunIds(caps), IncidentsOnlyFile(caps))
    ensures IncidentsOnlyFile(caps) == Strip(FullFile(caps), Online(caps))
    ensures TargetSet(IncidentsOnlyFile(caps), RunIds(caps)) == Offline(caps)
  {
    RunIsListed(caps);
    IncidentsOnlyIsStrippedFull(caps);
    StripKeepsTargets(FullFile(caps), Online(caps), RunIds(caps));
  }

  /** Shrinking the incidents-only file gives the shrunk full file, exactly when reuse does no harm. */
  lemma RecordingAndShrinkingCommute(caps: seq<Capture>)
    requires GoodRun(caps)
    ensures Shrunk(IncidentsOnlyFile(caps), RunIds(caps)) == Shrunk(FullFile(caps), RunIds(caps)) <==> ReuseHarmless(caps)
  {
    ModesListed(caps);
    OnlineWithinOffline(caps);
    if ReuseHarmless(caps) {
      StripTwice(FullFile(caps), Online(caps), Offline(caps));
    } else {
      var i, j := HarmedVerdict(caps);
      HarmedRow(caps, Online(caps), i, j);
    }
  }

  /** A row that was stripped and that shrinking keeps tells the two files apart. */
  lemma HarmedRow(caps: seq<Capture>, cut: set<ShrinkTarget>, i: int, j: int)
    requires GoodRun(caps) && IsPodRow(caps, i, j)
    requires RowTarget(caps, i, j) in cut && RowTarget(caps, i, j) !in Offline(caps)
    ensures Strip(Strip(FullFile(caps), cut), Offline(caps)) != Strip(FullFile(caps), Offline(caps))
  {
    var f := FullFile(caps);
    var k := RowKey(i + 1, caps[i].rows[j]);
    RowsAreStored(caps, i, j);
    assert caps[i].rows[j] in caps[i].rows;
    assert Strip(f, Offline(caps)).resources[k] == f.resources[k];
    assert Strip(Strip(f, cut), Offline(caps)).resources[k].shrunk;
  }

  lemma UniqueUidsAreHarmless(caps: seq<Capture>)
    requires OneRowPerPod(caps) && KeysIdentify(caps)
    ensures SharersHarmless(caps)
  {
    forall i, j | IsPodRow(caps, i, j) && !OwnReason(caps, i, j)
      ensures NameShownEarlier(caps, i, PodAt(caps, i, j))
    {
      var i', j' := EarlierRow(caps, i, j);
    }
  }

  lemma UniqueNamesAreHarmless(caps: seq<Capture>)
    requires NamesIdentify(caps)
    ensures NamesakesHarmless(caps)
  {
    forall i, j, i', j'
      ensures !BesideBadNamesake(caps, i, j, i', j')
    {
    }
  }

  /** In particular it does whenever names and UIDs go together. */
  lemma UniqueNamesCommute(caps: seq<Capture>)
    requires GoodRun(caps) && KeysIdentify(caps) && NamesIdentify(caps)
    ensures Online(caps) <= Offline(caps)
    ensures Shrunk(IncidentsOnlyFile(caps), RunIds(caps)) == Shrunk(FullFile(caps), RunIds(caps))
  {
    GoodRunsHaveOneRowPerPod(caps);
    UniqueUidsAreHarmless(caps);
    UniqueNamesAreHarmless(caps);
    OnlineWithinOffline(caps);
    RecordingAndShrinkingCommute(caps);
  }

  // ---- A pod replaced at the wrong moment ----

  function OnePod(ts: int, uid: string, ready: nat, status: string): Capture {
    Capture(ts, [Row(PODS, "shop", "web-0", uid, ["shop", "web-0", ReadyText(ready, 1), status], [123, 125], false)], [], [], map[], map[])
  }

  /** Capture u shows no unhealthy row. */
  predicate AllHealthyAt(caps: seq<Capture>, u: int) {
    0 <= u < |caps| ==> forall j :: 0 <= j < |caps[u].rows| ==> !RowUnhealthy(caps[u].rows[j])
  }

  lemma SeenAndHealthy(caps: seq<Capture>, i: int, x: int, y: int, p: Pod)
    requires x < i && Shows(caps, x, y, p) && AllHealthyAt(caps, i - 1) && AllHealthyAt(caps, i) && AllHealthyAt(caps, i + 1)
    ensures !KeptOffline(caps, i, p)
  {
  }

  lemma FirstAndHealthy(caps: seq<Capture>, p: Pod)
    requires forall u :: 0 <= u < |caps| ==> AllHealthyAt(caps, u)
    ensures KeptOffline(caps, 0, p)
  {
    forall i, j | Shows(caps, i, j, p)
      ensures !RowUnhealthy(caps[i].rows[j])
    {
      assert AllHealthyAt(caps, i);
    }
  }

  /** Healthy twice, then replaced by a crashing pod of the same name. */
  function ReplacedPod(): seq<Capture> {
    [OnePod(0, "a", 1, "Running"), OnePod(1, "a", 1, "Running"), OnePod(2, "b", 0, "CrashLoopBackOff")]
  }

  lemma ReplacedPodHealth()
    ensures ClassifyPodHealth("Running", ReadyText(1, 1)) == Healthy
    ensures ClassifyPodHealth("CrashLoopBackOff", ReadyText(0, 1)) == HardBad
  {
    RunningHealthIsFullReadiness(1, 1);
    TrimNothing("CrashLoopBackOff");
    assert "CrashLoopBackOff"[0] == 'C';
  }

  lemma OnePodIsGood(ts: int, uid: string, ready: nat, status: string)
    ensures GoodCapture(OnePod(ts, uid, ready, status))
  {
  }

  lemma ReplacedPodIsGood()
    ensures GoodRun(ReplacedPod()) && KeysIdentify(ReplacedPod())
  {
    OnePodIsGood(0, "a", 1, "Running");
    OnePodIsGood(1, "a", 1, "Running");
    OnePodIsGood(2, "b", 0, "CrashLoopBackOff");
    forall i, j | IsPodRow(ReplacedPod(), i, j)
      ensures PodAt(ReplacedPod(), i, j) == Pod("shop", "web-0")
    {
    }
  }

  /** The recorder drops the second sighting of a pod that is healthy twice, whatever another pod does next. */
  lemma HealthyTwiceDropped(caps: seq<Capture>, next: string)
    requires 2 <= |caps| <= 3 && caps[0] == OnePod(0, "a", 1, "Running") && caps[1] == OnePod(1, "a", 1, "Running")
    requires |caps| == 3 ==> caps[2] == OnePod(2, next, 0, "CrashLoopBackOff") && next != "" && next != "a"
    ensures IsPodRow(caps, 1, 0) && !OwnReason(caps, 1, 0)
  {
    TwiceHealthy(caps);
    assert caps[0].rows[0].kind == PODS && PodKey(caps[0].rows[0]) == "a";
  }

  lemma TwiceHealthy(caps: seq<Capture>)
    requires |caps| >= 2 && caps[0] == OnePod(0, "a", 1, "Running") && caps[1] == OnePod(1, "a", 1, "Running")
    ensures AllHealthyAt(caps, 0) && AllHealthyAt(caps, 1)
  {
    ReplacedPodHealth();
  }

  lemma ReplacedPodIsHarmed()
    ensures !NamesakesHarmless(ReplacedPod()) && !OwnReason(ReplacedPod(), 1, 0)
  {
    ReplacedPodHealth();
    assert BesideBadNamesake(ReplacedPod(), 1, 0, 2, 0);
    ReplacedPodHasNoReason();
  }

  lemma ReplacedPodHasNoReason()
    ensures !OwnReason(ReplacedPod(), 1, 0)
  {
    HealthyTwiceDropped(ReplacedPod(), "b");
  }

  /** The two recording modes do disagree after such a run, even after shrinking. */
  lemma ReplacementBreaksAgreement()
    ensures GoodRun(ReplacedPod()) && KeysIdentify(ReplacedPod())
    ensures var caps := ReplacedPod(); Shrunk(IncidentsOnlyFile(caps), RunIds(caps)) != Shrunk(FullFile(caps), RunIds(caps))
  {
    var caps := ReplacedPod();
    ReplacedPodIsGood();
    ReplacedPodIsHarmed();
    RecordingAndShrinkingCommute(caps);
  }
}
