/**
 What a reader can still ask of a file that was stripped, online, offline or both: when the drill-down
 finds the same pods, that the timeline shows the same incidents, and when they keep their evidence.
 */
module Survival {
  import opened Model
  import opened Health
  import opened History
  import opened Observations
  import opened FileView
  import opened Reader
  import opened Drilldown
  import opened Snapshotter
  import opened Runs
  import opened Retention
  import opened Incidents

  // ---- Drill-down ----

  lemma FewerTargetsLeaveCopies(f: File, a: set<ShrinkTarget>, b: set<ShrinkTarget>)
    requires a <= b && LeavesCopies(f, b)
    ensures LeavesCopies(f, a)
  {
    forall p | p in PodsOf(f)
      ensures exists k :: IsLeft(f, a, p, k)
    {
      var k :| IsLeft(f, b, p, k);
      assert IsLeft(f, a, p, k);
    }
  }

  ghost predicate SparesUnhealthy(caps: seq<Capture>, cut: set<ShrinkTarget>) {
    forall i, j :: IsPodRow(caps, i, j) && RowUnhealthy(caps[i].rows[j]) ==> RowTarget(caps, i, j) !in cut
  }

  /** The first row of a name that is never unhealthy. */
  ghost predicate FirstOfHealthy(caps: seq<Capture>, i: int, j: int) {
    IsPodRow(caps, i, j) && !NameShownEarlier(caps, i, PodAt(caps, i, j)) && !NameUnhealthyOnce(caps, PodAt(caps, i, j))
  }

  ghost predicate SparesFirst(caps: seq<Capture>, cut: set<ShrinkTarget>) {
    forall i, j :: FirstOfHealthy(caps, i, j) ==> RowTarget(caps, i, j) !in cut
  }

  /** A row that neither the cut nor the shrinker touches: an unhealthy one, or the pod's first. */
  lemma SparedRow(caps: seq<Capture>, cut: set<ShrinkTarget>, p: Pod, x: nat) returns (i: int, j: int)
    requires GoodRun(caps) && SparesUnhealthy(caps, cut) && SparesFirst(caps, cut) && x in RunHistory(caps, p)
    ensures Shows(caps, i, j, p) && RowTarget(caps, i, j) !in cut && RowTarget(caps, i, j) !in Offline(caps)
  {
    var h := RunHistory(caps, p);
    RunHistoryTells(caps, p);
    i := EssentialExists(h, x);
    if Unhealthy(h, i) {
      j := UnhealthySource(caps, p, h, i);
    } else {
      j :| Shows(caps, i, j, p);
      NamesInHistory(caps, i, h, p);
      assert FirstOfHealthy(caps, i, j);
    }
    OfflineVerdict(caps, i, j);
  }

  lemma CopyAt(caps: seq<Capture>, s: set<ShrinkTarget>, i: int, j: int) returns (k: ResKey)
    requires GoodRun(caps) && IsPodRow(caps, i, j) && RowTarget(caps, i, j) !in s
    ensures IsLeft(FullFile(caps), s, PodAt(caps, i, j), k)
  {
    k := StoredRow(caps, i, j);
    LeftAt(FullFile(caps), s, k);
  }

  lemma LeftAt(f: File, s: set<ShrinkTarget>, k: ResKey)
    requires IsRealPod(f, k) && TargetKey(k) !in s
    ensures IsLeft(f, s, PodOf(k), k)
  {
  }

  lemma StoredRow(caps: seq<Capture>, i: int, j: int) returns (k: ResKey)
    requires GoodRun(caps) && IsPodRow(caps, i, j)
    ensures IsRealPod(FullFile(caps), k) && TargetKey(k) == RowTarget(caps, i, j)
  {
    RowsAreStored(caps, i, j);
    assert caps[i].rows[j] in caps[i].rows;
    k := RowKey(i + 1, caps[i].rows[j]);
  }

  lemma SparedCopy(caps: seq<Capture>, cut: set<ShrinkTarget>, p: Pod) returns (k: ResKey)
    requires GoodRun(caps) && SparesUnhealthy(caps, cut) && SparesFirst(caps, cut) && p in PodsOf(FullFile(caps))
    ensures IsLeft(FullFile(caps), cut + Offline(caps), p, k)
  {
    var x, y := RowOfPod(caps, p);
    HistoryEntry(caps, p, x, y);
    var i, j := SparedRow(caps, cut, p, x);
    k := CopyAt(caps, cut + Offline(caps), i, j);
  }

  lemma RowOfPod(caps: seq<Capture>, p: Pod) returns (i: nat, j: int)
    requires GoodRun(caps) && p in PodsOf(FullFile(caps))
    ensures Shows(caps, i, j, p)
  {
    var k :| k in FullFile(caps).resources && k.kind == PODS && PodOf(k) == p;
    i, j := StoredAreRows(caps, k);
  }

  /** A name that is never unhealthy keeps its first row or none. */
  lemma OnlyTheFirstIsLeft(caps: seq<Capture>, cut: set<ShrinkTarget>, i: int, j: int, i': int, j': int)
    requires FirstOfHealthy(caps, i, j) && Shows(caps, i', j', PodAt(caps, i, j)) && RowTarget(caps, i', j') !in cut
    ensures KeptOffline(caps, i', PodAt(caps, i, j)) ==> RowTarget(caps, i, j) !in cut
  {
    var p := PodAt(caps, i, j);
    assert Shows(caps, i, j, p);
    assert !NameUnhealthyAt(caps, i' - 1, p) && !NameUnhealthyAt(caps, i', p) && !NameUnhealthyAt(caps, i' + 1, p);
  }

  lemma LeftCopy(f: File, s: set<ShrinkTarget>, p: Pod, k0: ResKey) returns (k: ResKey)
    requires LeavesCopies(f, s) && k0 in f.resources && k0.kind == PODS && PodOf(k0) == p
    ensures IsLeft(f, s, p, k)
  {
    assert p in PodsOf(f);
    k :| IsLeft(f, s, p, k);
  }

  /** A copy that is left is a captured row. */
  lemma LeftRow(caps: seq<Capture>, s: set<ShrinkTarget>, p: Pod, k: ResKey) returns (i: int, j: int)
    requires GoodRun(caps) && IsLeft(FullFile(caps), s, p, k)
    ensures Shows(caps, i, j, p) && RowTarget(caps, i, j) !in s
  {
    i, j := StoredAreRows(caps, k);
  }

  lemma LeftRowOf(caps: seq<Capture>, s: set<ShrinkTarget>, i: int, j: int) returns (i': int, j': int)
    requires GoodRun(caps) && LeavesCopies(FullFile(caps), s) && IsPodRow(caps, i, j)
    ensures Shows(caps, i', j', PodAt(caps, i, j)) && RowTarget(caps, i', j') !in s
  {
    RowsAreStored(caps, i, j);
    var k := LeftCopy(FullFile(caps), s, PodAt(caps, i, j), RowKey(i + 1, caps[i].rows[j]));
    i', j' := LeftRow(caps, s, PodAt(caps, i, j), k);
  }

  lemma CopiesSpareFirst(caps: seq<Capture>, cut: set<ShrinkTarget>, i: int, j: int)
    requires GoodRun(caps) && LeavesCopies(FullFile(caps), cut + Offline(caps)) && FirstOfHealthy(caps, i, j)
    ensures RowTarget(caps, i, j) !in cut
  {
    var i', j' := LeftRowOf(caps, cut + Offline(caps), i, j);
    OfflineRule(caps, i', j');
    OnlyTheFirstIsLeft(caps, cut, i, j, i', j');
  }

  /** Stripping a cut that spares unhealthy rows, and shrinking on top, leaves every pod a copy exactly
      when the cut spares the first row of every healthy name. */
  lemma CopiesLeft(caps: seq<Capture>, cut: set<ShrinkTarget>)
    requires GoodRun(caps) && SparesUnhealthy(caps, cut)
    ensures LeavesCopies(FullFile(caps), cut + Offline(caps)) <==> SparesFirst(caps, cut)
  {
    if SparesFirst(caps, cut) {
      forall p | p in PodsOf(FullFile(caps))
        ensures exists k :: IsLeft(FullFile(caps), cut + Offline(caps), p, k)
      {
        var k := SparedCopy(caps, cut, p);
      }
    }
    if LeavesCopies(FullFile(caps), cut + Offline(caps)) {
      forall i, j | FirstOfHealthy(caps, i, j)
        ensures RowTarget(caps, i, j) !in cut
      {
        CopiesSpareFirst(caps, cut, i, j);
      }
    }
  }

  lemma OnlineSparesUnhealthy(caps: seq<Capture>)
    requires GoodRun(caps)
    ensures SparesUnhealthy(caps, Online(caps))
  {
    forall i, j | IsPodRow(caps, i, j) && RowUnhealthy(caps[i].rows[j])
      ensures RowTarget(caps, i, j) !in Online(caps)
    {
      OnlineVerdict(caps, i, j);
      assert PodKey(caps[i].rows[j]) == KeyOfRow(caps, i, j);
    }
  }

  lemma OnlineSparesFirst(caps: seq<Capture>)
    requires GoodRun(caps)
    ensures SparesFirst(caps, Online(caps)) <==> SharersHarmless(caps)
  {
    forall i, j | IsPodRow(caps, i, j)
      ensures RowTarget(caps, i, j) in Online(caps) <==> !OwnReason(caps, i, j)
    {
      OnlineVerdict(caps, i, j);
    }
    if SparesFirst(caps, Online(caps)) {
      forall i, j | IsPodRow(caps, i, j) && !OwnReason(caps, i, j)
        ensures !FirstOfHealthy(caps, i, j)
      {
      }
    }
  }

  /** Even recording incidents-only and shrinking on top leaves every pod a copy, exactly when shared
      UIDs do no harm. */
  lemma EveryModeLeavesCopies(caps: seq<Capture>)
    requires GoodRun(caps)
    ensures LeavesCopies(FullFile(caps), Online(caps) + Offline(caps)) <==> SharersHarmless(caps)
  {
    OnlineSparesUnhealthy(caps);
    OnlineSparesFirst(caps);
    CopiesLeft(caps, Online(caps));
  }

  lemma FullFileIsUnstripped(caps: seq<Capture>)
    requires GoodRun(caps)
    ensures forall k :: k in FullFile(caps).resources ==> !FullFile(caps).resources[k].shrunk
  {
    forall k | k in FullFile(caps).resources
      ensures !FullFile(caps).resources[k].shrunk
    {
      var i, j := StoredAreRows(caps, k);
      RowsAreStored(caps, i, j);
      assert caps[i].rows[j] in caps[i].rows;
    }
  }

  /** A stable drill shows the same pods, whichever way the run was recorded and whether or not the file
      was shrunk. */
  lemma DrillAgreesInEveryMode(caps: seq<Capture>, d: Decoder, snap: nat, kind: Kind, ns: string, name: string)
    requires GoodRun(caps) && SharersHarmless(caps) && StableFor(FullFile(caps), d, kind)
    ensures var pods := PodFilter(FullFile(caps), d, snap, kind, ns, name);
            && PodFilter(IncidentsOnlyFile(caps), d, snap, kind, ns, name) == pods
            && PodFilter(Shrunk(FullFile(caps), RunIds(caps)), d, snap, kind, ns, name) == pods
            && PodFilter(Shrunk(IncidentsOnlyFile(caps), RunIds(caps)), d, snap, kind, ns, name) == pods
  {
    var f, on, off := FullFile(caps), Online(caps), Offline(caps);
    ModesListed(caps);
    FullFileIsUnstripped(caps);
    EveryModeLeavesCopies(caps);
    FewerTargetsLeaveCopies(f, on, on + off);
    FewerTargetsLeaveCopies(f, off, on + off);
    DrillSurvivesStripping(f, d, on, snap, kind, ns, name);
    DrillSurvivesStripping(f, d, off, snap, kind, ns, name);
    DrillSurvivesStripping(f, d, on + off, snap, kind, ns, name);
    StripBoth(f, on, off);
  }

  ghost predicate RowsHaveContent(caps: seq<Capture>) {
    forall i, j :: IsPodRow(caps, i, j) ==> |caps[i].rows[j].raw| > 0
  }

  lemma FullFileIsPlain(caps: seq<Capture>)
    requires GoodRun(caps) && RowsHaveContent(caps)
    ensures EmptyWhereStripped(FullFile(caps)) && PodsHaveContent(FullFile(caps)) && PlainNamespaces(FullFile(caps))
  {
    forall k | k in FullFile(caps).resources
      ensures !FullFile(caps).resources[k].shrunk && '/' !in k.ns
      ensures k.kind == PODS ==> |FullFile(caps).resources[k].data| > 0
    {
      StoredRowIsPlain(caps, k);
    }
  }

  lemma StoredRowIsPlain(caps: seq<Capture>, k: ResKey)
    requires GoodRun(caps) && RowsHaveContent(caps) && k in FullFile(caps).resources
    ensures !FullFile(caps).resources[k].shrunk && '/' !in k.ns
    ensures k.kind == PODS ==> |FullFile(caps).resources[k].data| > 0
  {
    var i, j := StoredAreRows(caps, k);
    RowsAreStored(caps, i, j);
    assert caps[i].rows[j] in caps[i].rows;
    if k.kind == PODS {
      assert IsPodRow(caps, i, j);
    }
  }

  lemma ShrinkingLeavesCopies(caps: seq<Capture>)
    requires GoodRun(caps)
    ensures LeavesCopies(FullFile(caps), Offline(caps)) && LeavesCopies(FullFile(caps), {})
  {
    CopiesLeft(caps, {});
    NothingMore(Offline(caps));
    FewerTargetsLeaveCopies(FullFile(caps), {}, Offline(caps));
  }

  /** Row (i, j) shows the name, and the recorder has a reason of its own to keep it. */
  ghost predicate KeepsName(caps: seq<Capture>, i: int, j: int, p: Pod) {
    Shows(caps, i, j, p) && OwnReason(caps, i, j)
  }

  ghost predicate NameShown(caps: seq<Capture>, p: Pod) {
    exists i, j :: Shows(caps, i, j, p)
  }

  /** Some row of every name is kept. */
  ghost predicate EveryNameKept(caps: seq<Capture>) {
    forall p :: NameShown(caps, p) ==> exists i, j :: KeepsName(caps, i, j, p)
  }

  lemma KeptRowIsCopy(caps: seq<Capture>, i: int, j: int, p: Pod) returns (k: ResKey)
    requires GoodRun(caps) && KeepsName(caps, i, j, p)
    ensures IsLeft(FullFile(caps), Online(caps), p, k)
  {
    OnlineVerdict(caps, i, j);
    k := CopyAt(caps, Online(caps), i, j);
  }

  lemma CopyIsKeptRow(caps: seq<Capture>, p: Pod) returns (i: int, j: int)
    requires GoodRun(caps) && LeavesCopies(FullFile(caps), Online(caps)) && NameShown(caps, p)
    ensures KeepsName(caps, i, j, p)
  {
    var x, y :| Shows(caps, x, y, p);
    i, j := LeftRowOf(caps, Online(caps), x, y);
    OnlineVerdict(caps, i, j);
  }

  lemma OnlineLeavesCopies(caps: seq<Capture>)
    requires GoodRun(caps)
    ensures LeavesCopies(FullFile(caps), Online(caps)) <==> EveryNameKept(caps)
  {
    if EveryNameKept(caps) {
      forall p | p in PodsOf(FullFile(caps))
        ensures exists k :: IsLeft(FullFile(caps), Online(caps), p, k)
      {
        var x, y := RowOfPod(caps, p);
        assert NameShown(caps, p);
        var i, j :| KeepsName(caps, i, j, p);
        var k := KeptRowIsCopy(caps, i, j, p);
      }
    }
    if LeavesCopies(FullFile(caps), Online(caps)) {
      forall p | NameShown(caps, p)
        ensures exists i, j :: KeepsName(caps, i, j, p)
      {
        var i, j := CopyIsKeptRow(caps, p);
      }
    }
  }

  /** Shrinking keeps every stable drill, recording incidents-only exactly when the recorder keeps a row of every
      name, and both together exactly when shared UIDs do no harm. */
  lemma DrillsInEveryMode(caps: seq<Capture>)
    requires GoodRun(caps) && RowsHaveContent(caps)
    ensures KeepsDrills(FullFile(caps), Shrunk(FullFile(caps), RunIds(caps)))
    ensures KeepsDrills(FullFile(caps), IncidentsOnlyFile(caps)) <==> EveryNameKept(caps)
    ensures KeepsDrills(FullFile(caps), Shrunk(IncidentsOnlyFile(caps), RunIds(caps))) <==> SharersHarmless(caps)
  {
    var f, on, off := FullFile(caps), Online(caps), Offline(caps);
    ModesListed(caps);
    FullFileIsPlain(caps);
    ShrinkingLeavesCopies(caps);
    OnlineLeavesCopies(caps);
    EveryModeLeavesCopies(caps);
    StripBoth(f, on, off);
    DrillsNeedCopies(f, off);
    DrillsNeedCopies(f, on);
    DrillsNeedCopies(f, on + off);
  }

  lemma HarmlessSharersKeepNames(caps: seq<Capture>)
    requires GoodRun(caps) && SharersHarmless(caps)
    ensures EveryNameKept(caps)
  {
    EveryModeLeavesCopies(caps);
    FewerTargetsLeaveCopies(FullFile(caps), Online(caps), Online(caps) + Offline(caps));
    OnlineLeavesCopies(caps);
  }

  // ---- Two pods with one UID ----

  function HealthyRow(name: string, uid: string): Row {
    Row(PODS, "shop", name, uid, ["shop", name, ReadyText(1, 1), "Running"], [123, 125], false)
  }

  /** One capture with two healthy pods that share a UID. */
  function SharedUid(): seq<Capture> {
    [Capture(0, [HealthyRow("a", "u"), HealthyRow("b", "u")], [], [], map[], map[])]
  }

  lemma SharedUidIsGood(caps: seq<Capture>)
    requires caps == SharedUid()
    ensures GoodRun(caps) && RowsHaveContent(caps)
  {
    assert "a"[0] != "b"[0];
  }

  lemma SharedUidHasNoReason(caps: seq<Capture>, p: Pod)
    requires caps == SharedUid() && p == Pod("shop", "b")
    ensures Shows(caps, 0, 1, p) && !OwnReason(caps, 0, 1) && forall i, j :: Shows(caps, i, j, p) ==> i == 0 && j == 1
  {
    SharedUidIsHealthy(caps);
    assert "a"[0] != "b"[0];
    assert caps[0].rows[0].kind == PODS && PodKey(caps[0].rows[0]) == "u";
  }

  lemma SharedUidIsHealthy(caps: seq<Capture>)
    requires caps == SharedUid()
    ensures AllHealthyAt(caps, 0)
  {
    ReplacedPodHealth();
  }

  /** The recorder takes the second for the first and drops its only row: it is in no drill of its owner
      any more, in either file. */
  lemma SharedUidLosesPod(caps: seq<Capture>)
    requires caps == SharedUid()
    ensures GoodRun(caps) && RowsHaveContent(caps) && !EveryNameKept(caps) && !SharersHarmless(caps)
    ensures !KeepsDrills(FullFile(caps), IncidentsOnlyFile(caps))
    ensures !KeepsDrills(FullFile(caps), Shrunk(IncidentsOnlyFile(caps), RunIds(caps)))
  {
    var p := Pod("shop", "b");
    SharedUidIsGood(caps);
    SharedUidHasNoReason(caps, p);
    assert NameShown(caps, p);
    if SharersHarmless(caps) {
      HarmlessSharersKeepNames(caps);
    }
    DrillsInEveryMode(caps);
  }

  // ---- Incident markers ----

  lemma ImportantSnapshotsKept(f: File, ids: seq<nat>, s: set<ShrinkTarget>, p: Pod, a: nat)
    requires Lists(ids, f) && s <= TargetSet(f, ids) && a < |ids| && Important(HistoryOf(f, ids, p), a)
    ensures ShrinkTarget(ids[a], p.ns, p.name) !in s
  {
    var t := ShrinkTarget(ids[a], p.ns, p.name);
    PositionOf(ids, a);
    forall k | k in f.resources && k.kind == PODS && TargetKey(k) == t
      ensures Important(HistoryOf(f, ids, PodOf(k)), Position(ids, k.snap))
    {
      assert PodOf(k) == p;
    }
  }

  /** The pod's raw JSON and log at the snapshot read the same from both files. */
  predicate ReadsTheSame(f: File, g: File, snap: nat, p: Pod) {
    && FetchRaw(f, snap, PODS, p.ns, p.name) == FetchRaw(g, snap, PODS, p.ns, p.name)
    && FetchPodLog(f, snap, p.ns, p.name) == FetchPodLog(g, snap, p.ns, p.name)
  }

  lemma UntargetedReadsTheSame(f: File, s: set<ShrinkTarget>, snap: nat, p: Pod)
    requires ShrinkTarget(snap, p.ns, p.name) !in s
    ensures ReadsTheSame(Strip(f, s), f, snap, p)
  {
  }

  lemma AroundMarkers(h: History, n: nat, i: nat, a: nat)
    requires MarkerAt(h, n, i) != NoIncident && i - 1 <= a <= i + 1
    ensures Important(h, a)
  {
    MarkersAreKept(h, n, i);
  }

  /** An incident keeps its evidence: at the marked snapshot and on either side of it the pod's raw
      JSON and log read the same after stripping any part of the targets. */
  lemma MarkedSnapshotsSurvive(f: File, ids: seq<nat>, s: set<ShrinkTarget>, p: Pod, i: nat, a: nat)
    requires Lists(ids, f) && s <= TargetSet(f, ids)
    requires MarkerAt(HistoryOf(f, ids, p), |ids|, i) != NoIncident && i - 1 <= a <= i + 1 && a < |ids|
    ensures ReadsTheSame(Strip(f, s), f, ids[a], p)
  {
    AroundMarkers(HistoryOf(f, ids, p), |ids|, i, a);
    ImportantSnapshotsKept(f, ids, s, p, a);
    UntargetedReadsTheSame(f, s, ids[a], p);
  }

  // ---- The evidence of a run ----

  ghost predicate NameShownAt(caps: seq<Capture>, u: int, p: Pod) {
    exists j :: Shows(caps, u, j, p)
  }

  /** The name is unhealthy at capture u and was healthy when it was last shown before. */
  ghost predicate StartsIncident(caps: seq<Capture>, u: int, p: Pod) {
    NameUnhealthyAt(caps, u, p) && exists v :: LastShown(caps, u, v, p) && !NameUnhealthyAt(caps, v, p)
  }

  ghost predicate LastShown(caps: seq<Capture>, u: int, v: int, p: Pod) {
    v < u && NameShownAt(caps, v, p) && forall w :: v < w < u ==> !NameShownAt(caps, w, p)
  }

  lemma ShownMeans(caps: seq<Capture>, u: int, h: History, p: Pod)
    requires Tells(h, caps, p)
    ensures NameShownAt(caps, u, p) <==> u in h
  {
  }

  lemma LastShownMeans(caps: seq<Capture>, u: int, v: int, h: History, p: Pod)
    requires Tells(h, caps, p)
    ensures LastShown(caps, u, v, p) <==> IsPrevious(h, u, v)
  {
    forall w
      ensures NameShownAt(caps, w, p) <==> w in h
    {
      ShownMeans(caps, w, h, p);
    }
  }

  lemma StartsMeans(caps: seq<Capture>, u: int, h: History, p: Pod)
    requires Tells(h, caps, p)
    ensures StartsIncident(caps, u, p) <==> TurnsBad(h, u)
  {
    NameUnhealthyMeans(caps, u, h, p);
    if v :| LastShown(caps, u, v, p) && !NameUnhealthyAt(caps, v, p) {
      LastShownMeans(caps, u, v, h, p);
      NameUnhealthyMeans(caps, v, h, p);
      assert v in h;
    }
    if v :| v in h && IsPrevious(h, u, v) && h[v] == Healthy {
      LastShownMeans(caps, u, v, h, p);
      NameUnhealthyMeans(caps, v, h, p);
    }
  }

  /** Markers sit exactly where an incident starts. */
  lemma MarkersMean(caps: seq<Capture>, u: int, p: Pod)
    requires GoodRun(caps)
    ensures MarkerAt(RunHistory(caps, p), |caps|, u) != NoIncident <==> StartsIncident(caps, u, p)
  {
    RunHistoryTells(caps, p);
    StartsMeans(caps, u, RunHistory(caps, p), p);
  }

  /** The name is hard-bad at capture u. */
  ghost predicate NameHardBadAt(caps: seq<Capture>, u: int, p: Pod) {
    exists j :: Shows(caps, u, j, p) && CellsHealth(caps[u].rows[j].cells) == HardBad
  }

  lemma NameHardBadMeans(caps: seq<Capture>, u: int, h: History, p: Pod)
    requires Tells(h, caps, p)
    ensures NameHardBadAt(caps, u, p) <==> u in h && h[u] == HardBad
  {
    if u in h {
      var j :| Shows(caps, u, j, p);
    }
  }

  /** Red are those incidents that start hard-bad and are so at the next capture too, or start in the last. */
  lemma RedMeans(caps: seq<Capture>, u: int, p: Pod)
    requires GoodRun(caps)
    ensures MarkerAt(RunHistory(caps, p), |caps|, u) == Red <==>
            StartsIncident(caps, u, p) && NameHardBadAt(caps, u, p) && (u == |caps| - 1 || NameHardBadAt(caps, u + 1, p))
  {
    RunHistoryTells(caps, p);
    MarkersMean(caps, u, p);
    NameHardBadMeans(caps, u, RunHistory(caps, p), p);
    NameHardBadMeans(caps, u + 1, RunHistory(caps, p), p);
  }

  /** Capture a lies at or beside a marker of the pod. */
  ghost predicate IsEvidence(caps: seq<Capture>, p: Pod, u: int, a: int) {
    MarkerAt(RunHistory(caps, p), |caps|, u) != NoIncident && u - 1 <= a <= u + 1 && 0 <= a < |caps|
  }

  /** The pod's JSON reads back as one of the rows has it, and not at all when none shows the pod. */
  ghost predicate RawAsCaptured(g: File, snap: nat, rows: seq<Row>, p: Pod) {
    && (forall r :: r in rows && r.kind == "pods" && r.ns == p.ns && r.name == p.name ==>
          FetchRaw(g, snap, "pods", p.ns, p.name) == Some(r.raw))
    && ((forall r :: r in rows ==> !(r.kind == "pods" && r.ns == p.ns && r.name == p.name)) ==>
          FetchRaw(g, snap, "pods", p.ns, p.name) == None)
  }

  /** And so does its log: the tail, its length, its text and the error of reading it. */
  ghost predicate LogAsCaptured(g: File, snap: nat, logs: seq<PodLog>, p: Pod) {
    && (forall l :: l in logs && l.ns == p.ns && l.pod == p.name ==>
          FetchPodLog(g, snap, p.ns, p.name) == Some(LogEntry(l.tailLines, |l.content|, l.content, l.errorMsg)))
    && ((forall l :: l in logs ==> !(l.ns == p.ns && l.pod == p.name)) ==> FetchPodLog(g, snap, p.ns, p.name) == None)
  }

  ghost predicate ReadsAsCaptured(g: File, snap: nat, c: Capture, p: Pod) {
    RawAsCaptured(g, snap, c.rows, p) && LogAsCaptured(g, snap, c.podLogs, p)
  }

  lemma HeldRawReadsBack(g: File, snap: nat, c: Capture, p: Pod)
    requires HoldsCapture(g, snap, c) && forall r :: r in c.rows ==> !r.shrunk
    ensures RawAsCaptured(g, snap, c.rows, p)
  {
    forall r | r in c.rows && r.kind == "pods" && r.ns == p.ns && r.name == p.name
      ensures FetchRaw(g, snap, "pods", p.ns, p.name) == Some(r.raw)
    {
      assert HoldsRow(g, snap, r);
    }
    assert RowsFrom(g, snap, c.rows);
  }

  lemma HeldLogReadsBack(g: File, snap: nat, c: Capture, p: Pod)
    requires HoldsCapture(g, snap, c)
    ensures LogAsCaptured(g, snap, c.podLogs, p)
  {
    forall l | l in c.podLogs && l.ns == p.ns && l.pod == p.name
      ensures FetchPodLog(g, snap, p.ns, p.name) == Some(LogEntry(l.tailLines, |l.content|, l.content, l.errorMsg))
    {
      assert HoldsLog(g, snap, l);
    }
    assert LogsFrom(g, snap, c.podLogs);
  }

  lemma FullFileReadsBack(caps: seq<Capture>, a: int, p: Pod)
    requires GoodRun(caps) && 0 <= a < |caps|
    ensures ReadsAsCaptured(FullFile(caps), a + 1, caps[a], p)
  {
    FullFileHoldsCaptures(caps);
    assert HoldsCapture(FullFile(caps), a + 1, caps[a]);
    HeldRawReadsBack(FullFile(caps), a + 1, caps[a], p);
    HeldLogReadsBack(FullFile(caps), a + 1, caps[a], p);
  }

  /** What a capture shows of a pod determines what is read back. */
  lemma CapturedDetermines(f: File, g: File, snap: nat, c: Capture, p: Pod)
    requires ReadsAsCaptured(f, snap, c, p)
    ensures ReadsAsCaptured(g, snap, c, p) <==> ReadsTheSame(g, f, snap, p)
  {
    if r :| r in c.rows && r.kind == "pods" && r.ns == p.ns && r.name == p.name {
      assert FetchRaw(f, snap, "pods", p.ns, p.name) == Some(r.raw);
    }
    if l :| l in c.podLogs && l.ns == p.ns && l.pod == p.name {
      assert FetchPodLog(f, snap, p.ns, p.name) == Some(LogEntry(l.tailLines, |l.content|, l.content, l.errorMsg));
    }
  }

  lemma ReadsLikeTheFullFile(caps: seq<Capture>, g: File, a: int, p: Pod)
    requires GoodRun(caps) && 0 <= a < |caps|
    ensures ReadsAsCaptured(g, a + 1, caps[a], p) <==> ReadsTheSame(g, FullFile(caps), a + 1, p)
  {
    FullFileReadsBack(caps, a, p);
    CapturedDetermines(FullFile(caps), g, a + 1, caps[a], p);
  }

  /** Around every marker of the run, file g reads back what was captured. */
  ghost predicate KeepsEvidence(caps: seq<Capture>, g: File) {
    forall p, u, a :: IsEvidence(caps, p, u, a) ==> ReadsAsCaptured(g, a + 1, caps[a], p)
  }

  /** Row (i, j) lies at or beside the start of an incident of its name. */
  ghost predicate BesideStart(caps: seq<Capture>, i: int, j: int, u: int) {
    IsPodRow(caps, i, j) && u - 1 <= i <= u + 1 && StartsIncident(caps, u, PodAt(caps, i, j))
  }

  ghost predicate SparesEvidence(caps: seq<Capture>, cut: set<ShrinkTarget>) {
    forall i, j, u :: BesideStart(caps, i, j, u) ==> RowTarget(caps, i, j) !in cut
  }

  /** Every member of the cut is a captured pod row. */
  ghost predicate CutsRows(caps: seq<Capture>, cut: set<ShrinkTarget>) {
    forall t :: t in cut ==> exists i, j :: IsPodRow(caps, i, j) && RowTarget(caps, i, j) == t
  }

  lemma CutRowReadsEmpty(caps: seq<Capture>, cut: set<ShrinkTarget>, i: int, j: int)
    requires GoodRun(caps) && RowsHaveContent(caps) && IsPodRow(caps, i, j) && RowTarget(caps, i, j) in cut
    ensures !ReadsTheSame(Strip(FullFile(caps), cut), FullFile(caps), i + 1, PodAt(caps, i, j))
  {
    RowsAreStored(caps, i, j);
    assert caps[i].rows[j] in caps[i].rows;
    StrippedRead(FullFile(caps), cut, RowKey(i + 1, caps[i].rows[j]));
  }

  lemma StrippedRead(f: File, cut: set<ShrinkTarget>, k: ResKey)
    requires k in f.resources && Strips(cut, k, f.resources[k]) && |f.resources[k].data| > 0
    ensures FetchRaw(Strip(f, cut), k.snap, k.kind, k.ns, k.name) != FetchRaw(f, k.snap, k.kind, k.ns, k.name)
  {
  }

  /** Stripping keeps the evidence exactly when it spares the rows beside the start of an incident. */
  lemma EvidenceKept(caps: seq<Capture>, cut: set<ShrinkTarget>)
    requires GoodRun(caps) && RowsHaveContent(caps) && CutsRows(caps, cut)
    ensures KeepsEvidence(caps, Strip(FullFile(caps), cut)) <==> SparesEvidence(caps, cut)
  {
    if KeepsEvidence(caps, Strip(FullFile(caps), cut)) {
      forall i, j, u | BesideStart(caps, i, j, u)
        ensures RowTarget(caps, i, j) !in cut
      {
        var p := PodAt(caps, i, j);
        MarkersMean(caps, u, p);
        assert IsEvidence(caps, p, u, i);
        ReadsLikeTheFullFile(caps, Strip(FullFile(caps), cut), i, p);
        if RowTarget(caps, i, j) in cut {
          CutRowReadsEmpty(caps, cut, i, j);
        }
      }
    }
    if SparesEvidence(caps, cut) {
      forall p, u, a | IsEvidence(caps, p, u, a)
        ensures ReadsAsCaptured(Strip(FullFile(caps), cut), a + 1, caps[a], p)
      {
        SparedEvidence(caps, cut, p, u, a);
        ReadsLikeTheFullFile(caps, Strip(FullFile(caps), cut), a, p);
      }
    }
  }

  lemma SparedEvidence(caps: seq<Capture>, cut: set<ShrinkTarget>, p: Pod, u: int, a: int)
    requires GoodRun(caps) && CutsRows(caps, cut) && SparesEvidence(caps, cut) && IsEvidence(caps, p, u, a)
    ensures ReadsTheSame(Strip(FullFile(caps), cut), FullFile(caps), a + 1, p)
  {
    MarkersMean(caps, u, p);
    var t := ShrinkTarget(a + 1, p.ns, p.name);
    if t in cut {
      var i, j :| IsPodRow(caps, i, j) && RowTarget(caps, i, j) == t;
      assert PodAt(caps, i, j) == p;
      assert BesideStart(caps, i, j, u);
    }
    UntargetedReadsTheSame(FullFile(caps), cut, a + 1, p);
  }

  /** Wherever a bad namesake close by starts an incident, the row is kept for a reason of its own. */
  ghost predicate StartersHarmless(caps: seq<Capture>) {
    forall i, j, i', j' :: BesideBadNamesake(caps, i, j, i', j') && StartsIncident(caps, i', PodAt(caps, i, j)) ==> OwnReason(caps, i, j)
  }

  lemma OnlineCutsRows(caps: seq<Capture>)
    requires GoodRun(caps)
    ensures CutsRows(caps, Online(caps)) && CutsRows(caps, Offline(caps)) && CutsRows(caps, Online(caps) + Offline(caps))
  {
    forall t | t in Online(caps)
      ensures exists i, j :: IsPodRow(caps, i, j) && RowTarget(caps, i, j) == t
    {
      var i, j := OnlineSource(caps, t);
    }
    forall t | t in Offline(caps)
      ensures exists i, j :: IsPodRow(caps, i, j) && RowTarget(caps, i, j) == t
    {
      var i, j := OfflineSource(caps, t);
    }
  }

  lemma OfflineSource(caps: seq<Capture>, t: ShrinkTarget) returns (i: int, j: int)
    requires GoodRun(caps) && t in Offline(caps)
    ensures IsPodRow(caps, i, j) && RowTarget(caps, i, j) == t
  {
    var k := TargetSource(FullFile(caps), RunIds(caps), t);
    i, j := StoredAreRows(caps, k);
  }

  /** Shrinking never touches the evidence. */
  lemma OfflineSparesEvidence(caps: seq<Capture>)
    requires GoodRun(caps)
    ensures SparesEvidence(caps, Offline(caps))
  {
    forall i, j, u | BesideStart(caps, i, j, u)
      ensures RowTarget(caps, i, j) !in Offline(caps)
    {
      StartIsKept(caps, i, j, u);
      OfflineRule(caps, i, j);
    }
  }

  lemma StartIsKept(caps: seq<Capture>, i: int, j: int, u: int)
    requires BesideStart(caps, i, j, u)
    ensures KeptOffline(caps, i, PodAt(caps, i, j))
  {
  }

  /** The recorder keeps a row beside the start of an incident, unless the incident is a namesake's. */
  lemma StartIsOwn(caps: seq<Capture>, i: int, j: int, u: int)
    requires OneRowPerPod(caps) && StartersHarmless(caps) && BesideStart(caps, i, j, u)
    ensures OwnReason(caps, i, j)
  {
    var p := PodAt(caps, i, j);
    var m :| Shows(caps, u, m, p) && RowUnhealthy(caps[u].rows[m]);
    if KeyOfRow(caps, u, m) == KeyOfRow(caps, i, j) {
      assert PodKey(caps[u].rows[m]) == KeyOfRow(caps, i, j);
      assert ShownUnhealthy(caps, u, KeyOfRow(caps, i, j));
    } else {
      assert u != i;
      assert BesideBadNamesake(caps, i, j, u, m);
    }
  }

  lemma OnlineSparesEvidence(caps: seq<Capture>)
    requires GoodRun(caps)
    ensures SparesEvidence(caps, Online(caps)) <==> StartersHarmless(caps)
  {
    GoodRunsHaveOneRowPerPod(caps);
    if StartersHarmless(caps) {
      forall i, j, u | BesideStart(caps, i, j, u)
        ensures RowTarget(caps, i, j) !in Online(caps)
      {
        StartIsOwn(caps, i, j, u);
        OnlineVerdict(caps, i, j);
      }
    }
    if SparesEvidence(caps, Online(caps)) {
      forall i, j, i', j' | BesideBadNamesake(caps, i, j, i', j') && StartsIncident(caps, i', PodAt(caps, i, j))
        ensures OwnReason(caps, i, j)
      {
        assert BesideStart(caps, i, j, i');
        OnlineVerdict(caps, i, j);
      }
    }
  }

  lemma SparesBoth(caps: seq<Capture>, a: set<ShrinkTarget>, b: set<ShrinkTarget>)
    requires SparesEvidence(caps, b)
    ensures SparesEvidence(caps, a + b) <==> SparesEvidence(caps, a)
  {
    if SparesEvidence(caps, a + b) {
      forall i, j, u | BesideStart(caps, i, j, u)
        ensures RowTarget(caps, i, j) !in a
      {
        assert RowTarget(caps, i, j) !in a + b;
      }
    }
  }

  /** Around every marker the raw JSON and the log survive shrinking, and they survive recording
      incidents-only, shrunk or not, exactly when namesakes that start an incident do no harm. */
  lemma EvidenceInEveryMode(caps: seq<Capture>)
    requires GoodRun(caps) && RowsHaveContent(caps)
    ensures KeepsEvidence(caps, Shrunk(FullFile(caps), RunIds(caps)))
    ensures KeepsEvidence(caps, IncidentsOnlyFile(caps)) <==> StartersHarmless(caps)
    ensures KeepsEvidence(caps, Shrunk(IncidentsOnlyFile(caps), RunIds(caps))) <==> StartersHarmless(caps)
  {
    var on, off := Online(caps), Offline(caps);
    ModesListed(caps);
    OnlineCutsRows(caps);
    OfflineSparesEvidence(caps);
    OnlineSparesEvidence(caps);
    SparesBoth(caps, on, off);
    StripBoth(FullFile(caps), on, off);
    EvidenceKept(caps, on);
    EvidenceKept(caps, off);
    EvidenceKept(caps, on + off);
  }

  /** The replaced pod's crash is marked red, and the state just before it is gone. */
  lemma ReplacementLosesEvidence(caps: seq<Capture>, p: Pod)
    requires caps == ReplacedPod() && p == Pod("shop", "web-0")
    ensures GoodRun(caps) && RowsHaveContent(caps)
    ensures MarkerAt(RunHistory(caps, p), |caps|, 2) == Red && !ReadsAsCaptured(IncidentsOnlyFile(caps), 2, caps[1], p)
  {
    ReplacedPodIsGood();
    ReadsLikeTheFullFile(caps, IncidentsOnlyFile(caps), 1, p);
    RunHistoryTells(caps, p);
    ReplacedPodMarker(RunHistory(caps, p));
    ReplacedPodIsHarmed();
    ReplacedPodHasContent();
    StrippedOnlineReadsEmpty(caps, 1, 0, p);
  }

  lemma ReplacedPodHasContent()
    ensures RowsHaveContent(ReplacedPod()) && Shows(ReplacedPod(), 1, 0, Pod("shop", "web-0"))
  {
  }

  lemma ReplacedPodMarker(h: History)
    requires Tells(h, ReplacedPod(), Pod("shop", "web-0"))
    ensures MarkerAt(h, 3, 2) == Red
  {
    var caps, p := ReplacedPod(), Pod("shop", "web-0");
    ReplacedPodHealth();
    assert Shows(caps, 1, 0, p) && Shows(caps, 2, 0, p);
    RedMarker(h, 3, 2);
  }

  lemma RedMarker(h: History, n: nat, i: nat)
    requires i in h && h[i] == HardBad && i - 1 in h && h[i - 1] == Healthy && i == n - 1
    ensures MarkerAt(h, n, i) == Red
  {
    assert IsPrevious(h, i, i - 1);
  }

  lemma StrippedOnlineReadsEmpty(caps: seq<Capture>, i: int, j: int, p: Pod)
    requires GoodRun(caps) && RowsHaveContent(caps) && Shows(caps, i, j, p) && !OwnReason(caps, i, j)
    ensures !ReadsTheSame(IncidentsOnlyFile(caps), FullFile(caps), i + 1, p)
  {
    ModesListed(caps);
    OnlineVerdict(caps, i, j);
    CutRowReadsEmpty(caps, Online(caps), i, j);
  }

  /** One incident index for the four files a run can leave. */
  lemma IncidentsAgreeInEveryMode(caps: seq<Capture>, full: IncidentIndex, shrunk: IncidentIndex, incidents: IncidentIndex, both: IncidentIndex)
    requires GoodRun(caps)
    requires IsIndex(full, FileHistories(FullFile(caps), RunIds(caps)), |caps|)
    requires IsIndex(shrunk, FileHistories(Shrunk(FullFile(caps), RunIds(caps)), RunIds(caps)), |caps|)
    requires IsIndex(incidents, FileHistories(IncidentsOnlyFile(caps), RunIds(caps)), |caps|)
    requires IsIndex(both, FileHistories(Shrunk(IncidentsOnlyFile(caps), RunIds(caps)), RunIds(caps)), |caps|)
    ensures full == shrunk == incidents == both
  {
    var f, ids := FullFile(caps), RunIds(caps);
    ModesListed(caps);
    StripKeepsHistories(f, Online(caps), ids);
    StripKeepsHistories(f, Offline(caps), ids);
    StripKeepsHistories(IncidentsOnlyFile(caps), Offline(caps), ids);
    var vs := VectorsOf(FileHistories(f, ids), |caps|);
    IndexIsDetermined(full, shrunk, vs, |caps|);
    IndexIsDetermined(full, incidents, vs, |caps|);
    IndexIsDetermined(full, both, vs, |caps|);
  }
}
