/** Which (pod, snapshot) pairs `kk shrink` strips. */
module ShrinkTargets {
  import opened Model
  import opened Health
  import opened History
  import opened Observations
  import opened Pieces

  ghost predicate Keeps(hs: Histories, o: Observation) {
    o.pod in hs && Important(hs[o.pod], o.idx)
  }

  function TargetOf(o: Observation): ShrinkTarget {
    ShrinkTarget(o.snap, o.pod.ns, o.pod.name)
  }

  /** The observations that the histories do not keep, in order. */
  ghost function Stripped(hs: Histories, obs: seq<Observation>): seq<ShrinkTarget> {
    if obs == [] then []
    else Stripped(hs, Front(obs)) + (if Keeps(hs, Last(obs)) then [] else [TargetOf(Last(obs))])
  }

  lemma {:induction false} StrippedAppend(hs: Histories, a: seq<Observation>, b: seq<Observation>)
    ensures Stripped(hs, a + b) == Stripped(hs, a) + Stripped(hs, b)
  {
    if b == [] {
      assert a + b == a;
    } else {
      assert Front(a + b) == a + Front(b);
      StrippedAppend(hs, a, Front(b));
    }
  }

  lemma {:induction false} StrippedLocal(hs: Histories, hs': Histories, obs: seq<Observation>)
    requires forall k :: 0 <= k < |obs| ==>
      obs[k].pod in hs && obs[k].pod in hs' && hs[obs[k].pod] == hs'[obs[k].pod]
    ensures Stripped(hs, obs) == Stripped(hs', obs)
  {
    if obs != [] {
      StrippedLocal(hs, hs', Front(obs));
    }
  }

  /** A target is exactly an observation that is not kept. */
  lemma {:induction false} StrippedMembers(hs: Histories, obs: seq<Observation>, t: ShrinkTarget)
    ensures t in Stripped(hs, obs) <==>
            exists k :: 0 <= k < |obs| && TargetOf(obs[k]) == t && !Keeps(hs, obs[k])
  {
    if obs != [] {
      StrippedMembers(hs, Front(obs), t);
      if t in Stripped(hs, Front(obs)) {
        var k :| 0 <= k < |Front(obs)| && TargetOf(Front(obs)[k]) == t && !Keeps(hs, Front(obs)[k]);
        assert obs[k] == Front(obs)[k];
      }
      if exists k :: 0 <= k < |obs| && TargetOf(obs[k]) == t && !Keeps(hs, obs[k]) {
        var k :| 0 <= k < |obs| && TargetOf(obs[k]) == t && !Keeps(hs, obs[k]);
        assert k < |Front(obs)| ==> obs[k] == Front(obs)[k];
      }
    }
  }

  /** What shrinking strips of a scanned file. */
  ghost function TargetsOf(obs: seq<Observation>): seq<ShrinkTarget> {
    Stripped(HistoriesOf(obs), obs)
  }

  /** Closing a group adds its own targets and disturbs none of the earlier ones. */
  lemma StrippedGroups(done: seq<Observation>, group: seq<Observation>, pod: Pod)
    requires NotOfPod(done, pod) && OfPod(group, pod)
    ensures TargetsOf(done + group) == TargetsOf(done) + TargetsOf(group)
  {
    var all := HistoriesOf(done + group);
    HistoriesOfGroups(done, group, pod);
    forall k | 0 <= k < |done|
      ensures done[k].pod in HistoriesOf(done) && done[k].pod !in HistoriesOf(group)
    {
      HistoriesKeys(done, done[k].pod);
      HistoriesKeys(group, done[k].pod);
    }
    forall k | 0 <= k < |group|
      ensures group[k].pod in HistoriesOf(group)
    {
      HistoriesKeys(group, group[k].pod);
    }
    StrippedLocal(all, HistoriesOf(done), done);
    StrippedLocal(all, HistoriesOf(group), group);
    StrippedAppend(all, done, group);
  }

  // ---- One pod ----

  predicate Near(i: int, o: Observation) {
    o.health != Healthy && -1 <= i - o.idx <= 1
  }

  lemma WindowInGroup(group: seq<Observation>, h: History, i: int)
    requires Spells(h, group)
    ensures InWindow(h, i) <==> exists j :: 0 <= j < |group| && Near(i, group[j])
  {
    if InWindow(h, i) {
      var u := if Unhealthy(h, i - 1) then i - 1 else if Unhealthy(h, i) then i else i + 1;
      var j :| 0 <= j < |group| && group[j].idx == u;
      assert Near(i, group[j]);
    }
    if exists j :: 0 <= j < |group| && Near(i, group[j]) {
      var j :| 0 <= j < |group| && Near(i, group[j]);
      assert Unhealthy(h, group[j].idx);
    }
  }

  lemma HealthyGroup(group: seq<Observation>, h: History)
    requires Spells(h, group)
    ensures !EverUnhealthy(h) <==> forall j :: 0 <= j < |group| ==> group[j].health == Healthy
  {
    if EverUnhealthy(h) {
      var u :| u in h && Unhealthy(h, u);
      var j :| 0 <= j < |group| && group[j].idx == u;
      assert group[j].health != Healthy;
    } else {
      forall j | 0 <= j < |group|
        ensures group[j].health == Healthy
      {
        assert group[j].idx in h && !Unhealthy(h, group[j].idx);
      }
    }
  }

  lemma FirstOfGroup(group: seq<Observation>, h: History, k: nat)
    requires Spells(h, group) && IndexIncreasing(group) && k < |group|
    ensures IsFirst(h, group[k].idx) <==> k == 0
  {
    assert group[0].idx in h;
  }

  lemma ImportantInGroup(group: seq<Observation>, pod: Pod, k: nat)
    requires OfPod(group, pod) && IndexIncreasing(group) && k < |group|
    ensures Keeps(HistoriesOf(group), group[k]) <==>
            (exists j :: 0 <= j < |group| && Near(group[k].idx, group[j])) ||
            (k == 0 && forall j :: 0 <= j < |group| ==> group[j].health == Healthy)
  {
    GroupHistory(group, pod);
    var h := HistoriesOf(group)[pod];
    assert group[k].pod == pod;
    WindowInGroup(group, h, group[k].idx);
    HealthyGroup(group, h);
    FirstOfGroup(group, h, k);
  }

  ghost predicate NearSome(i: int, group: seq<Observation>, k: nat) {
    exists j :: 0 <= j < k && j < |group| && Near(i, group[j])
  }

  /** The pod's unhealthy indices, expanded by one on either side within the file. */
  method CollectImportant(group: seq<Observation>, n: nat) returns (important: set<nat>)
    requires InRange(group, n)
    ensures forall i :: i in important <==> 0 <= i < n && NearSome(i, group, |group|)
  {
    important := {};
    for k := 0 to |group|
      invariant forall i :: i in important <==> 0 <= i < n && NearSome(i, group, k)
    {
      var o := group[k];
      ghost var was := important;
      if o.health != Healthy {
        important := important + {o.idx};
        if o.idx > 0 {
          important := important + {o.idx - 1};
        }
        if o.idx < n - 1 {
          important := important + {o.idx + 1};
        }
      }
      assert forall i :: i in important <==> i in was || (0 <= i < n && Near(i, o));
      assert forall i :: NearSome(i, group, k + 1) <==> NearSome(i, group, k) || Near(i, o);
    }
  }

  /** The flush step: what one pod's group contributes. n is the number of snapshots. */
  method GroupTargets(group: seq<Observation>, n: nat, ghost pod: Pod) returns (targets: seq<ShrinkTarget>)
    requires OfPod(group, pod) && IndexIncreasing(group) && InRange(group, n)
    ensures targets == TargetsOf(group)
  {
    targets := [];
    if |group| == 0 {
      return;
    }
    var important := CollectImportant(group, n);
    if |important| == 0 {
      important := {group[0].idx};
      FirstIsKept(group, n, pod);
    } else {
      WindowIsKept(group, n, pod, important);
    }
    for k := 0 to |group|
      invariant targets == Stripped(HistoriesOf(group), group[..k])
    {
      assert Front(group[..k + 1]) == group[..k];
      if group[k].idx !in important {
        targets := targets + [TargetOf(group[k])];
      }
    }
    assert group[..|group|] == group;
  }

  lemma FirstIsKept(group: seq<Observation>, n: nat, pod: Pod)
    requires group != [] && OfPod(group, pod) && IndexIncreasing(group) && InRange(group, n)
    requires forall i :: 0 <= i < n ==> !NearSome(i, group, |group|)
    ensures forall k :: 0 <= k < |group| ==> (group[k].idx == group[0].idx <==> Keeps(HistoriesOf(group), group[k]))
  {
    forall j | 0 <= j < |group|
      ensures group[j].health == Healthy
    {
      assert !NearSome(group[j].idx, group, |group|);
      assert !Near(group[j].idx, group[j]);
    }
    forall k | 0 <= k < |group|
      ensures group[k].idx == group[0].idx <==> Keeps(HistoriesOf(group), group[k])
    {
      ImportantInGroup(group, pod, k);
    }
  }

  lemma WindowIsKept(group: seq<Observation>, n: nat, pod: Pod, important: set<nat>)
    requires OfPod(group, pod) && IndexIncreasing(group) && InRange(group, n) && |important| > 0
    requires forall i :: i in important <==> 0 <= i < n && NearSome(i, group, |group|)
    ensures forall k :: 0 <= k < |group| ==> (group[k].idx in important <==> Keeps(HistoriesOf(group), group[k]))
  {
    var i :| i in important;
    var j :| 0 <= j < |group| && Near(i, group[j]);
    assert group[j].health != Healthy;
    forall k | 0 <= k < |group|
      ensures group[k].idx in important <==> Keeps(HistoriesOf(group), group[k])
    {
      ImportantInGroup(group, pod, k);
      assert NearSome(group[k].idx, group, |group|) <==>
             exists j :: 0 <= j < |group| && Near(group[k].idx, group[j]);
    }
  }

  method IndexSnapshots(snapshots: seq<SnapshotInfo>) returns (index: map<nat, nat>)
    requires Increasing(Ids(snapshots))
    ensures forall s :: s in index <==> s in Ids(snapshots)
    ensures forall s :: s in index ==> index[s] == Position(Ids(snapshots), s)
  {
    var ids := Ids(snapshots);
    index := map[];
    for i := 0 to |snapshots|
      invariant forall s :: s in index <==> s in ids[..i]
      invariant forall j :: 0 <= j < i ==> ids[j] in index && index[ids[j]] == j
    {
      index := index[snapshots[i].id := i];
    }
    assert ids[..|ids|] == ids;
  }

  /** A row of a snapshot that is not listed shows nothing. */
  method ObserveRow(row: PodHealthRow, snapIdx: map<nat, nat>, ghost ids: seq<nat>) returns (seen: seq<Observation>)
    requires forall s :: s in snapIdx <==> s in ids
    requires forall s :: s in snapIdx ==> snapIdx[s] == Position(ids, s)
    ensures seen == Observe(row, ids)
  {
    if row.snap in snapIdx {
      seen := [Observation(Pod(row.ns, row.name), snapIdx[row.snap], row.snap,
                           ClassifyPodHealth(row.status, row.ready))];
    } else {
      seen := [];
    }
  }

  lemma CloseGroup(rows: seq<PodHealthRow>, ids: seq<nat>, b: nat, r: nat, pod: Pod, group: seq<Observation>)
    requires Grouped(rows) && Increasing(ids) && Scanning(rows, ids, b, r, pod, group)
    ensures OfPod(group, pod) && IndexIncreasing(group) && InRange(group, |ids|)
    ensures TargetsOf(Observed(rows[..r], ids)) == TargetsOf(Observed(rows[..b], ids)) + TargetsOf(group)
  {
    GroupShape(rows, ids, b, r, pod, group);
    GroupAddsTargets(rows, ids, b, r, pod, group);
  }

  lemma GroupAddsTargets(rows: seq<PodHealthRow>, ids: seq<nat>, b: nat, r: nat, pod: Pod, group: seq<Observation>)
    requires Scanning(rows, ids, b, r, pod, group) && OfPod(group, pod)
    ensures TargetsOf(Observed(rows[..r], ids)) == TargetsOf(Observed(rows[..b], ids)) + TargetsOf(group)
  {
    GroupIsNew(rows, ids, b, r, pod, group);
    TargetsOfGroup(Observed(rows[..r], ids), Observed(rows[..b], ids), group, pod);
  }

  lemma TargetsOfGroup(all: seq<Observation>, done: seq<Observation>, group: seq<Observation>, pod: Pod)
    requires all == done + group && NotOfPod(done, pod) && OfPod(group, pod)
    ensures TargetsOf(all) == TargetsOf(done) + TargetsOf(group)
  {
    StrippedGroups(done, group, pod);
  }

  /** One row of the scan: a row of another pod closes the group, then the row joins its group.
      b and b' are where the groups begin. */
  method ScanRow(rows: seq<PodHealthRow>, snapshots: seq<SnapshotInfo>, snapIdx: map<nat, nat>, r: nat,
                 ghost b: nat, pod: Pod, group: seq<Observation>)
    returns (ghost b': nat, pod': Pod, group': seq<Observation>, more: seq<ShrinkTarget>)
    requires Increasing(Ids(snapshots)) && Grouped(rows) && r < |rows|
    requires forall s :: s in snapIdx <==> s in Ids(snapshots)
    requires forall s :: s in snapIdx ==> snapIdx[s] == Position(Ids(snapshots), s)
    requires Scanning(rows, Ids(snapshots), b, r, pod, group)
    ensures Scanning(rows, Ids(snapshots), b', r + 1, pod', group')
    ensures TargetsOf(Observed(rows[..b'], Ids(snapshots))) == TargetsOf(Observed(rows[..b], Ids(snapshots))) + more
  {
    ghost var ids := Ids(snapshots);
    var row := rows[r];
    var seen := ObserveRow(row, snapIdx, ids);
    if row.ns != pod.ns || row.name != pod.name {
      NextGroup(rows, ids, b, r, pod, group);
      CloseGroup(rows, ids, b, r, pod, group);
      more := GroupTargets(group, |snapshots|, pod);
      b', pod', group' := r, Pod(row.ns, row.name), seen;
    } else {
      SameGroup(rows, ids, b, r, pod, group);
      b', pod', group', more := b, pod, group + seen, [];
    }
  }

  /** The whole scan: exactly the observations outside their pod's window, once each, in row order. */
  method ComputeShrinkTargets(rows: seq<PodHealthRow>, snapshots: seq<SnapshotInfo>) returns (targets: seq<ShrinkTarget>)
    requires Increasing(Ids(snapshots)) && Grouped(rows)
    ensures targets == TargetsOf(Observed(rows, Ids(snapshots)))
  {
    ghost var ids := Ids(snapshots);
    targets := [];
    if |snapshots| == 0 {
      NothingObserved(rows);
      return;
    }
    var snapIdx := IndexSnapshots(snapshots);
    var group: seq<Observation> := [];
    var pod := Pod("", "");
    ghost var b: nat := 0;
    for r := 0 to |rows|
      invariant Scanning(rows, ids, b, r, pod, group)
      invariant targets == TargetsOf(Observed(rows[..b], ids))
    {
      var more;
      b, pod, group, more := ScanRow(rows, snapshots, snapIdx, r, b, pod, group);
      targets := targets + more;
    }
    CloseGroup(rows, ids, b, |rows|, pod, group);
    var more := GroupTargets(group, |snapshots|, pod);
    targets := targets + more;
    assert rows[..|rows|] == rows;
  }

  lemma {:induction false} NothingObserved(rows: seq<PodHealthRow>)
    ensures Observed(rows, []) == []
  {
    if rows != [] {
      NothingObserved(Front(rows));
    }
  }
}
