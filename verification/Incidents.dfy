/** The incident index: one severity vector for the file and one for each pod that had an incident. */
module Incidents {
  import opened Model
  import opened Health
  import opened History
  import opened Observations
  import ShrinkTargets

  datatype IncidentIndex = IncidentIndex(global: seq<Severity>, perPod: map<string, seq<Severity>>)

  function KeyOf(p: Pod): string {
    JoinKey(p.ns, p.name)
  }

  /** Text keys are unambiguous as long as no namespace holds a slash. */
  ghost predicate PlainPods(pods: set<Pod>) {
    forall p :: p in pods ==> '/' !in p.ns
  }

  /** Every observed pod's severity vector over n snapshots. */
  type Vectors = map<Pod, seq<Severity>>

  ghost function VectorsOf(hs: Histories, n: nat): Vectors {
    map p | p in hs :: MarkerVector(hs[p], n)
  }

  predicate HasMarker(v: seq<Severity>) {
    exists i | 0 <= i < |v| :: v[i] != NoIncident
  }

  ghost predicate Sized(vs: Vectors, n: nat) {
    forall p :: p in vs ==> |vs[p]| == n
  }

  ghost predicate IsGlobal(global: seq<Severity>, vs: Vectors, n: nat)
    requires Sized(vs, n)
  {
    && |global| == n
    && (forall p, i :: p in vs && 0 <= i < n ==> AtMost(vs[p][i], global[i]))
    && (forall i :: 0 <= i < n && global[i] != NoIncident ==> exists p :: p in vs && vs[p][i] == global[i])
  }

  ghost predicate IsPerPod(perPod: map<string, seq<Severity>>, vs: Vectors) {
    && (forall p :: p in vs && HasMarker(vs[p]) ==> KeyOf(p) in perPod && perPod[KeyOf(p)] == vs[p])
    && (forall key :: key in perPod ==> exists p :: p in vs && key == KeyOf(p) && HasMarker(vs[p]))
  }

  /** The global vector is the pointwise maximum over all pods; the stored vectors are those with some marker. */
  ghost predicate IsIndexOf(idx: IncidentIndex, vs: Vectors, n: nat) {
    Sized(vs, n) && IsGlobal(idx.global, vs, n) && IsPerPod(idx.perPod, vs)
  }

  /** The index of a file of n snapshots with the given histories. */
  ghost predicate IsIndex(idx: IncidentIndex, hs: Histories, n: nat) {
    IsIndexOf(idx, VectorsOf(hs, n), n)
  }

  /** The vectors leave no freedom: equal histories give equal indexes. */
  lemma IndexIsDetermined(a: IncidentIndex, b: IncidentIndex, vs: Vectors, n: nat)
    requires IsIndexOf(a, vs, n) && IsIndexOf(b, vs, n)
    ensures a == b
  {
    forall i | 0 <= i < n
      ensures a.global[i] == b.global[i]
    {
      if a.global[i] != NoIncident {
        var p :| p in vs && vs[p][i] == a.global[i];
        assert AtMost(vs[p][i], b.global[i]);
      }
      if b.global[i] != NoIncident {
        var p :| p in vs && vs[p][i] == b.global[i];
        assert AtMost(vs[p][i], a.global[i]);
      }
    }
    assert a.global == b.global;
    PerPodIncluded(a.perPod, b.perPod, vs);
    PerPodIncluded(b.perPod, a.perPod, vs);
  }

  lemma PerPodIncluded(a: map<string, seq<Severity>>, b: map<string, seq<Severity>>, vs: Vectors)
    requires IsPerPod(a, vs) && IsPerPod(b, vs)
    ensures forall key :: key in a ==> key in b && a[key] == b[key]
  {
    forall key | key in a
      ensures key in b && a[key] == b[key]
    {
      var p :| p in vs && key == KeyOf(p) && HasMarker(vs[p]);
    }
  }

  /** The global vector is the pointwise maximum of the stored ones. */
  lemma GlobalIsMaxOfStored(idx: IncidentIndex, vs: Vectors, n: nat, i: nat)
    requires IsIndexOf(idx, vs, n) && i < n
    ensures forall key :: key in idx.perPod ==> |idx.perPod[key]| == n && AtMost(idx.perPod[key][i], idx.global[i])
    ensures idx.global[i] == NoIncident || exists key :: key in idx.perPod && idx.perPod[key][i] == idx.global[i]
  {
    forall key | key in idx.perPod
      ensures |idx.perPod[key]| == n && AtMost(idx.perPod[key][i], idx.global[i])
    {
      var p :| p in vs && key == KeyOf(p) && HasMarker(vs[p]);
    }
    if idx.global[i] != NoIncident {
      var p :| p in vs && vs[p][i] == idx.global[i];
      assert HasMarker(vs[p]);
      assert idx.perPod[KeyOf(p)][i] == idx.global[i];
    }
  }

  /** Red is the worst: the file shows it wherever some pod has it, and shows nothing where none has
      anything. */
  lemma RedIsWorst(idx: IncidentIndex, vs: Vectors, n: nat, i: nat)
    requires IsIndexOf(idx, vs, n) && i < n
    ensures idx.global[i] == Red <==> exists p :: p in vs && vs[p][i] == Red
    ensures idx.global[i] == NoIncident <==> forall p :: p in vs ==> vs[p][i] == NoIncident
  {
    if p :| p in vs && vs[p][i] == Red {
      assert AtMost(vs[p][i], idx.global[i]);
    }
    if p :| p in vs && vs[p][i] != NoIncident {
      assert AtMost(vs[p][i], idx.global[i]);
    }
  }

  /** Only pods with an incident have a vector, under namespace/name, and it is their own. */
  lemma StoredHaveIncidents(idx: IncidentIndex, vs: Vectors, n: nat, key: string)
    requires IsIndexOf(idx, vs, n)
    ensures key in idx.perPod <==>
            exists p, i :: p in vs && 0 <= i < n && vs[p][i] != NoIncident && key == p.ns + "/" + p.name
    ensures forall p :: p in vs && p.ns + "/" + p.name in idx.perPod && '/' !in p.ns && (forall q :: q in vs ==> '/' !in q.ns) ==>
              idx.perPod[p.ns + "/" + p.name] == vs[p]
  {
    if key in idx.perPod {
      var p :| p in vs && key == KeyOf(p) && HasMarker(vs[p]);
      var i :| 0 <= i < n && vs[p][i] != NoIncident;
    }
    if p, i :| p in vs && 0 <= i < n && vs[p][i] != NoIncident && key == p.ns + "/" + p.name {
      assert HasMarker(vs[p]) && key == KeyOf(p);
    }
    forall p | p in vs && p.ns + "/" + p.name in idx.perPod && '/' !in p.ns && (forall q :: q in vs ==> '/' !in q.ns)
      ensures idx.perPod[p.ns + "/" + p.name] == vs[p]
    {
      var q :| q in vs && KeyOf(p) == KeyOf(q) && HasMarker(vs[q]);
      JoinKeyInjective(p.ns, p.name, q.ns, q.name);
    }
  }

  // ---- One pod ----

  /** The severity the scan gives to the m-th observation of a group. */
  function TransitionSeverity(group: seq<Observation>, n: nat, m: nat): Severity
    requires 1 <= m < |group|
  {
    var now := group[m];
    if group[m - 1].health != Healthy || now.health == Healthy then NoIncident
    else if now.health == SoftBad then Yellow
    else
      var persists :=
        if m + 1 < |group| then group[m + 1].health == HardBad && group[m + 1].idx == now.idx + 1
        else now.idx == n - 1;
      if persists then Red else Yellow
  }

  lemma TurnsBadInGroup(group: seq<Observation>, h: History, m: nat)
    requires Spells(h, group) && IndexIncreasing(group) && 1 <= m < |group|
    ensures TurnsBad(h, group[m].idx) <==> group[m - 1].health == Healthy && group[m].health != Healthy
  {
    var i, j := group[m].idx, group[m - 1].idx;
    assert IsPrevious(h, i, j) by {
      forall k | k in h
        ensures k <= j || i <= k
      {
        var x :| 0 <= x < |group| && group[x].idx == k;
        assert x <= m - 1 || m <= x;
      }
    }
    if TurnsBad(h, i) {
      var j' :| j' in h && IsPrevious(h, i, j') && h[j'] == Healthy;
      assert j' == j;
    }
  }

  lemma PersistsInGroup(group: seq<Observation>, h: History, n: nat, m: nat)
    requires Spells(h, group) && IndexIncreasing(group) && InRange(group, n) && 1 <= m < |group|
    requires group[m].health == HardBad
    ensures Persists(h, n, group[m].idx) <==>
            if m + 1 < |group| then group[m + 1].health == HardBad && group[m + 1].idx == group[m].idx + 1
            else group[m].idx == n - 1
  {
    NextInGroup(group, h, m);
  }

  /** The next snapshot is observed exactly when the next observation is of it. */
  lemma NextInGroup(group: seq<Observation>, h: History, m: nat)
    requires Spells(h, group) && IndexIncreasing(group) && m < |group|
    ensures m < |group| && group[m].idx in h && h[group[m].idx] == group[m].health
    ensures group[m].idx + 1 in h <==> m + 1 < |group| && group[m + 1].idx == group[m].idx + 1
    ensures m + 1 < |group| ==> group[m].idx < group[m + 1].idx && h[group[m + 1].idx] == group[m + 1].health
  {
    var i := group[m].idx;
    if i + 1 in h {
      var x :| 0 <= x < |group| && group[x].idx == i + 1;
      assert m < x;
      assert m + 1 < |group| && group[m + 1].idx <= group[x].idx;
    }
  }

  /** The scan's verdict is the marker of the history. */
  lemma MarkerInGroup(group: seq<Observation>, h: History, n: nat, m: nat)
    requires Spells(h, group) && IndexIncreasing(group) && InRange(group, n) && 1 <= m < |group|
    ensures MarkerAt(h, n, group[m].idx) == TransitionSeverity(group, n, m)
  {
    TurnsBadInGroup(group, h, m);
    if group[m].health == HardBad {
      PersistsInGroup(group, h, n, m);
    }
  }

  ghost predicate IsLater(group: seq<Observation>, i: int) {
    exists m :: 1 <= m < |group| && group[m].idx == i
  }

  lemma NoMarkerElsewhere(group: seq<Observation>, h: History, n: nat, i: int)
    requires Spells(h, group) && IndexIncreasing(group) && InRange(group, n)
    requires !IsLater(group, i)
    ensures MarkerAt(h, n, i) == NoIncident
  {
    if i in h {
      var x :| 0 <= x < |group| && group[x].idx == i;
      assert x == 0;
      forall j | j in h
        ensures !IsPrevious(h, i, j)
      {
        var y :| 0 <= y < |group| && group[y].idx == j;
      }
    }
  }

  /** A vector that says at each later observation what the scan finds there, and nothing elsewhere. */
  ghost predicate SpelledOut(v: seq<Severity>, group: seq<Observation>, n: nat) {
    && |v| == n
    && (forall m :: 1 <= m < |group| && 0 <= group[m].idx < n ==> v[group[m].idx] == TransitionSeverity(group, n, m))
    && (forall i :: 0 <= i < n && !IsLater(group, i) ==> v[i] == NoIncident)
  }

  lemma MarkersSpelledOut(group: seq<Observation>, n: nat, pod: Pod)
    requires group != [] && OfPod(group, pod) && IndexIncreasing(group) && InRange(group, n)
    ensures HistoriesOf(group).Keys == {pod}
    ensures SpelledOut(MarkerVector(HistoriesOf(group)[pod], n), group, n)
  {
    GroupHistory(group, pod);
    var h := HistoriesOf(group)[pod];
    forall m | 1 <= m < |group|
      ensures MarkerAt(h, n, group[m].idx) == TransitionSeverity(group, n, m)
    {
      MarkerInGroup(group, h, n, m);
    }
    forall i | 0 <= i < n && !IsLater(group, i)
      ensures MarkerAt(h, n, i) == NoIncident
    {
      NoMarkerElsewhere(group, h, n, i);
    }
  }

  /** A vector that is only allocated when the first marker appears. */
  function Entry(v: seq<Severity>, i: int): Severity {
    if 0 <= i < |v| then v[i] else NoIncident
  }

  ghost predicate IsMerged(global': seq<Severity>, global: seq<Severity>, podVec: seq<Severity>) {
    |global'| == |global| && forall i :: 0 <= i < |global| ==> global'[i] == Worse(global[i], Entry(podVec, i))
  }

  ghost predicate IsScanned(group: seq<Observation>, m: nat, i: int) {
    exists k :: 1 <= k < m && k < |group| && group[k].idx == i
  }

  /** After m observations the vector agrees with `want` where the scan has been, and is quiet elsewhere. */
  ghost predicate ScannedTo(podVec: seq<Severity>, want: seq<Severity>, group: seq<Observation>, m: nat) {
    && (podVec == [] || (|podVec| == |want| && HasMarker(want)))
    && forall i :: 0 <= i < |want| ==> Entry(podVec, i) == if IsScanned(group, m, i) then want[i] else NoIncident
  }

  lemma ScanStep(podVec: seq<Severity>, want: seq<Severity>, group: seq<Observation>, n: nat, m: nat, podVec': seq<Severity>)
    requires IndexIncreasing(group) && InRange(group, n) && SpelledOut(want, group, n) && 1 <= m < |group|
    requires ScannedTo(podVec, want, group, m)
    requires var at := group[m].idx; var sev := TransitionSeverity(group, n, m);
             if sev == NoIncident then podVec' == podVec
             else |podVec'| == n && podVec'[at] == sev && forall i :: 0 <= i < n && i != at ==> podVec'[i] == Entry(podVec, i)
    ensures Entry(podVec, group[m].idx) == NoIncident
    ensures ScannedTo(podVec', want, group, m + 1)
  {
    var at := group[m].idx;
    assert want[at] == TransitionSeverity(group, n, m);
    assert !IsScanned(group, m, at);
    forall i | 0 <= i < n
      ensures IsScanned(group, m + 1, i) <==> IsScanned(group, m, i) || i == at
    {
      ScannedMore(group, m, i);
    }
  }

  lemma ScannedMore(group: seq<Observation>, m: nat, i: int)
    requires 1 <= m < |group|
    ensures IsScanned(group, m + 1, i) <==> IsScanned(group, m, i) || i == group[m].idx
  {
    if k :| 1 <= k < m && k < |group| && group[k].idx == i {
      assert IsScanned(group, m + 1, i);
    }
  }

  lemma ScanDone(podVec: seq<Severity>, want: seq<Severity>, group: seq<Observation>, n: nat)
    requires SpelledOut(want, group, n) && ScannedTo(podVec, want, group, |group|)
    ensures podVec == if HasMarker(want) then want else []
    ensures forall i :: 0 <= i < n ==> Entry(podVec, i) == want[i]
  {
    forall i | 0 <= i < n
      ensures Entry(podVec, i) == want[i]
    {
      assert IsLater(group, i) <==> IsScanned(group, |group|, i);
    }
  }

  /** Scans one group into its vector `want`; the vector stays nil when the pod has no marker, and
      its entries are merged into the global vector. */
  method ScanGroup(group: seq<Observation>, n: nat, global: seq<Severity>, ghost want: seq<Severity>)
    returns (podVec: seq<Severity>, global': seq<Severity>)
    requires group != [] && IndexIncreasing(group) && InRange(group, n) && SpelledOut(want, group, n)
    requires |global| == n
    ensures podVec == if HasMarker(want) then want else []
    ensures IsMerged(global', global, want)
  {
    podVec, global' := [], global;
    for m := 1 to |group|
      invariant ScannedTo(podVec, want, group, m)
      invariant IsMerged(global', global, podVec)
    {
      podVec, global' := ScanOne(group, n, m, podVec, global', global, want);
    }
    ScanDone(podVec, want, group, n);
  }

  /** One observation of the scan; global0 is the global vector before the group. */
  method ScanOne(group: seq<Observation>, n: nat, m: nat, podVec: seq<Severity>, global: seq<Severity>,
                 ghost global0: seq<Severity>, ghost want: seq<Severity>)
    returns (podVec': seq<Severity>, global': seq<Severity>)
    requires IndexIncreasing(group) && InRange(group, n) && SpelledOut(want, group, n) && 1 <= m < |group|
    requires ScannedTo(podVec, want, group, m)
    requires |global0| == n && IsMerged(global, global0, podVec)
    ensures ScannedTo(podVec', want, group, m + 1)
    ensures IsMerged(global', global0, podVec')
  {
    podVec', global' := podVec, global;
    var at := group[m].idx;
    var sev := TransitionSeverity(group, n, m);
    if sev != NoIncident {
      if !AtMost(sev, global[at]) {
        global' := global[at := sev];
      }
      if podVec == [] {
        podVec' := seq(n, _ => NoIncident);
      }
      podVec' := podVec'[at := sev];
    }
    ScanStep(podVec, want, group, n, m, podVec');
  }

  lemma AddVector(idx: IncidentIndex, vs: Vectors, n: nat, pod: Pod, v: seq<Severity>, idx': IncidentIndex)
    requires IsIndexOf(idx, vs, n) && pod !in vs && PlainPods(vs.Keys + {pod}) && |v| == n
    requires IsMerged(idx'.global, idx.global, v)
    requires idx'.perPod == if HasMarker(v) then idx.perPod[KeyOf(pod) := v] else idx.perPod
    ensures IsIndexOf(idx', vs[pod := v], n)
  {
    AddToGlobal(idx, vs, n, pod, v, idx'.global);
    AddToPerPod(idx.perPod, vs, pod, v, idx'.perPod);
  }

  lemma AddToGlobal(idx: IncidentIndex, vs: Vectors, n: nat, pod: Pod, v: seq<Severity>, global': seq<Severity>)
    requires Sized(vs, n) && IsGlobal(idx.global, vs, n) && pod !in vs && |v| == n
    requires IsMerged(global', idx.global, v)
    ensures IsGlobal(global', vs[pod := v], n)
  {
    var vs' := vs[pod := v];
    forall i | 0 <= i < n && global'[i] != NoIncident
      ensures exists p :: p in vs' && vs'[p][i] == global'[i]
    {
      if global'[i] == idx.global[i] {
        var p :| p in vs && vs[p][i] == idx.global[i];
        assert vs'[p][i] == global'[i];
      } else {
        assert vs'[pod][i] == global'[i];
      }
    }
  }

  lemma AddToPerPod(perPod: map<string, seq<Severity>>, vs: Vectors, pod: Pod, v: seq<Severity>, perPod': map<string, seq<Severity>>)
    requires IsPerPod(perPod, vs) && pod !in vs && PlainPods(vs.Keys + {pod})
    requires perPod' == if HasMarker(v) then perPod[KeyOf(pod) := v] else perPod
    ensures IsPerPod(perPod', vs[pod := v])
  {
    var vs' := vs[pod := v];
    forall p | p in vs' && HasMarker(vs'[p])
      ensures KeyOf(p) in perPod' && perPod'[KeyOf(p)] == vs'[p]
    {
      JoinKeyInjective(p.ns, p.name, pod.ns, pod.name);
    }
    forall key | key in perPod'
      ensures exists p :: p in vs' && key == KeyOf(p) && HasMarker(vs'[p])
    {
      if key in perPod {
        var p :| p in vs && key == KeyOf(p) && HasMarker(vs[p]);
        assert vs'[p] == vs[p];
      } else {
        assert key == KeyOf(pod) && HasMarker(vs'[pod]);
      }
    }
  }

  lemma VectorsOfGroups(done: seq<Observation>, group: seq<Observation>, pod: Pod, n: nat)
    requires group != [] && OfPod(group, pod) && IndexIncreasing(group) && NotOfPod(done, pod)
    ensures pod !in HistoriesOf(done) && pod in HistoriesOf(group)
    ensures HistoriesOf(done + group).Keys == HistoriesOf(done).Keys + {pod}
    ensures VectorsOf(HistoriesOf(done + group), n) ==
            VectorsOf(HistoriesOf(done), n)[pod := MarkerVector(HistoriesOf(group)[pod], n)]
  {
    HistoriesOfGroups(done, group, pod);
    HistoriesKeys(done, pod);
    GroupHistory(group, pod);
    VectorsOfOneMore(HistoriesOf(done), pod, HistoriesOf(group)[pod], n);
    assert HistoriesOf(done + group) == HistoriesOf(done)[pod := HistoriesOf(group)[pod]];
  }

  lemma VectorsOfOneMore(hs: Histories, pod: Pod, h: History, n: nat)
    ensures VectorsOf(hs[pod := h], n) == VectorsOf(hs, n)[pod := MarkerVector(h, n)]
  {
  }

  /** The flush step. */
  method Flush(group: seq<Observation>, n: nat, pod: Pod, idx: IncidentIndex, ghost done: seq<Observation>)
    returns (idx': IncidentIndex)
    requires OfPod(group, pod) && IndexIncreasing(group) && InRange(group, n) && NotOfPod(done, pod)
    requires group != [] ==> '/' !in pod.ns
    requires IsIndex(idx, HistoriesOf(done), n) && PlainPods(HistoriesOf(done).Keys)
    ensures IsIndex(idx', HistoriesOf(done + group), n) && PlainPods(HistoriesOf(done + group).Keys)
  {
    if |group| == 0 {
      assert done + group == done;
      return idx;
    }
    VectorsOfGroups(done, group, pod, n);
    idx' := Merge(group, n, pod, idx, VectorsOf(HistoriesOf(done), n), MarkerVector(HistoriesOf(group)[pod], n));
  }

  /** Adds the vector of one more pod. */
  method Merge(group: seq<Observation>, n: nat, pod: Pod, idx: IncidentIndex, ghost vs: Vectors, ghost want: seq<Severity>)
    returns (idx': IncidentIndex)
    requires group != [] && OfPod(group, pod) && IndexIncreasing(group) && InRange(group, n)
    requires pod in HistoriesOf(group) && want == MarkerVector(HistoriesOf(group)[pod], n)
    requires IsIndexOf(idx, vs, n) && pod !in vs && PlainPods(vs.Keys + {pod})
    ensures IsIndexOf(idx', vs[pod := want], n)
  {
    MarkersSpelledOut(group, n, pod);
    if |group| < 2 {
      // A single observation has nothing to compare with.
      AddQuiet(group, idx, vs, n, pod, want);
      return idx;
    }
    var podVec, global' := ScanGroup(group, n, idx.global, want);
    idx' := idx.(global := global');
    if podVec != [] {
      idx' := idx'.(perPod := idx.perPod[JoinKey(pod.ns, pod.name) := podVec]);
    }
    AddScanned(idx, vs, n, pod, want, podVec, idx');
  }

  lemma AddScanned(idx: IncidentIndex, vs: Vectors, n: nat, pod: Pod, want: seq<Severity>, podVec: seq<Severity>, idx': IncidentIndex)
    requires |want| == n && podVec == (if HasMarker(want) then want else []) && IsMerged(idx'.global, idx.global, want)
    requires idx'.perPod == if podVec != [] then idx.perPod[JoinKey(pod.ns, pod.name) := podVec] else idx.perPod
    requires IsIndexOf(idx, vs, n) && pod !in vs && PlainPods(vs.Keys + {pod})
    ensures IsIndexOf(idx', vs[pod := want], n)
  {
    AddVector(idx, vs, n, pod, want, idx');
  }

  lemma AddQuiet(group: seq<Observation>, idx: IncidentIndex, vs: Vectors, n: nat, pod: Pod, want: seq<Severity>)
    requires SpelledOut(want, group, n) && |group| == 1
    requires IsIndexOf(idx, vs, n) && pod !in vs && PlainPods(vs.Keys + {pod})
    ensures IsIndexOf(idx, vs[pod := want], n)
  {
    QuietVector(want, group, n, idx.global);
    AddVector(idx, vs, n, pod, want, idx);
  }

  lemma QuietVector(v: seq<Severity>, group: seq<Observation>, n: nat, global: seq<Severity>)
    requires SpelledOut(v, group, n) && |group| == 1 && |global| == n
    ensures !HasMarker(v) && IsMerged(global, global, v)
  {
    assert forall i :: 0 <= i < n ==> !IsLater(group, i);
  }

  // ---- The whole scan ----

  /** The index of what the first b rows show. */
  ghost predicate IndexedUpto(idx: IncidentIndex, rows: seq<PodHealthRow>, ids: seq<nat>, b: nat) {
    b <= |rows| && IsIndex(idx, HistoriesOf(Observed(rows[..b], ids)), |ids|) && PlainPods(HistoriesOf(Observed(rows[..b], ids)).Keys)
  }

  /** Flushes the group that ends before row r. */
  method FlushGroup(rows: seq<PodHealthRow>, snapshots: seq<SnapshotInfo>, r: nat,
                    ghost b: nat, pod: Pod, group: seq<Observation>, idx: IncidentIndex)
    returns (idx': IncidentIndex)
    requires Increasing(Ids(snapshots)) && Grouped(rows) && r <= |rows|
    requires group != [] ==> '/' !in pod.ns
    requires Scanning(rows, Ids(snapshots), b, r, pod, group)
    requires IndexedUpto(idx, rows, Ids(snapshots), b)
    ensures IndexedUpto(idx', rows, Ids(snapshots), r)
  {
    GroupShape(rows, Ids(snapshots), b, r, pod, group);
    GroupIsNew(rows, Ids(snapshots), b, r, pod, group);
    idx' := Flush(group, |snapshots|, pod, idx, Observed(rows[..b], Ids(snapshots)));
  }

  method BuildIncidentIndex(rows: seq<PodHealthRow>, snapshots: seq<SnapshotInfo>) returns (idx: IncidentIndex)
    requires Increasing(Ids(snapshots)) && Grouped(rows)
    requires forall r :: 0 <= r < |rows| ==> '/' !in rows[r].ns
    ensures IsIndex(idx, HistoriesOf(Observed(rows, Ids(snapshots))), |snapshots|)
  {
    ghost var ids := Ids(snapshots);
    var n := |snapshots|;
    if n == 0 {
      ShrinkTargets.NothingObserved(rows);
      return IncidentIndex([], map[]);
    }
    var snapIdx := ShrinkTargets.IndexSnapshots(snapshots);
    idx := IncidentIndex(seq(n, _ => NoIncident), map[]);
    var group: seq<Observation> := [];
    var pod := Pod("", "");
    ghost var b: nat := 0;
    for r := 0 to |rows|
      invariant Scanning(rows, ids, b, r, pod, group)
      invariant group != [] ==> '/' !in pod.ns
      invariant IndexedUpto(idx, rows, ids, b)
    {
      b, pod, group, idx := ScanRow(rows, snapshots, snapIdx, r, b, pod, group, idx);
    }
    idx := FlushGroup(rows, snapshots, |rows|, b, pod, group, idx);
    assert rows[..|rows|] == rows;
  }

  /** One row of the scan: a row of another pod flushes the group, then the row joins its group. */
  method ScanRow(rows: seq<PodHealthRow>, snapshots: seq<SnapshotInfo>, snapIdx: map<nat, nat>, r: nat,
                 ghost b: nat, pod: Pod, group: seq<Observation>, idx: IncidentIndex)
    returns (ghost b': nat, pod': Pod, group': seq<Observation>, idx': IncidentIndex)
    requires Increasing(Ids(snapshots)) && Grouped(rows) && r < |rows|
    requires '/' !in rows[r].ns && (group != [] ==> '/' !in pod.ns)
    requires forall s :: s in snapIdx <==> s in Ids(snapshots)
    requires forall s :: s in snapIdx ==> snapIdx[s] == Position(Ids(snapshots), s)
    requires Scanning(rows, Ids(snapshots), b, r, pod, group)
    requires IndexedUpto(idx, rows, Ids(snapshots), b)
    ensures Scanning(rows, Ids(snapshots), b', r + 1, pod', group')
    ensures group' != [] ==> '/' !in pod'.ns
    ensures IndexedUpto(idx', rows, Ids(snapshots), b')
  {
    ghost var ids := Ids(snapshots);
    var row := rows[r];
    var seen := ShrinkTargets.ObserveRow(row, snapIdx, ids);
    if row.ns != pod.ns || row.name != pod.name {
      NextGroup(rows, ids, b, r, pod, group);
      idx' := FlushGroup(rows, snapshots, r, b, pod, group, idx);
      b', pod', group' := r, Pod(row.ns, row.name), seen;
    } else {
      SameGroup(rows, ids, b, r, pod, group);
      b', pod', group', idx' := b, pod, group + seen, idx;
    }
  }
}
