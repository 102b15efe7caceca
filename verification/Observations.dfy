/** The pod rows of a file as the grouped scans see them, and the histories they spell out. */
module Observations {
  import opened Health
  import opened History
  import opened Pieces

  datatype PodHealthRow = PodHealthRow(snap: nat, ns: string, name: string, status: string, ready: string) {
    function Key(): Pod {
      Pod(ns, name)
    }
  }

  /** A row whose snapshot is known, with the snapshot's index in the listing. */
  datatype Observation = Observation(pod: Pod, idx: nat, snap: nat, health: PodHealth)

  // ---- Row order ----

  /** Text order by character code, as the database collates. */
  predicate TextLess(s: string, t: string) {
    if t == "" then false
    else if s == "" then true
    else if s[0] != t[0] then s[0] < t[0]
    else TextLess(s[1..], t[1..])
  }

  predicate RowLess(a: PodHealthRow, b: PodHealthRow) {
    TextLess(a.ns, b.ns) ||
    (a.ns == b.ns && (TextLess(a.name, b.name) || (a.name == b.name && a.snap < b.snap)))
  }

  /** ORDER BY namespace, name, snapshot_id, with no two rows alike. */
  ghost predicate Ordered(rows: seq<PodHealthRow>) {
    forall i, j :: 0 <= i < j < |rows| ==> RowLess(rows[i], rows[j])
  }

  ghost predicate Increasing(ids: seq<nat>) {
    forall i, j :: 0 <= i < j < |ids| ==> ids[i] < ids[j]
  }

  /** What the scans rely on: a pod's rows are contiguous and in snapshot order. */
  ghost predicate Grouped(rows: seq<PodHealthRow>) {
    && (forall i, j :: 0 <= i < j < |rows| && rows[i].Key() == rows[j].Key() ==> rows[i].snap < rows[j].snap)
    && (forall i, k, j :: 0 <= i < k < j < |rows| && rows[i].Key() == rows[j].Key() ==> rows[k].Key() == rows[j].Key())
  }

  /** The first k characters agree, and then s ends or has the smaller character. */
  predicate LessAt(s: string, t: string, k: nat) {
    k <= |s| && k < |t| && s[..k] == t[..k] && (k == |s| || s[k] < t[k])
  }

  lemma {:induction false} TextLessMeans(s: string, t: string)
    ensures TextLess(s, t) <==> exists k: nat :: LessAt(s, t, k)
  {
    if s == "" {
      assert t != "" ==> LessAt(s, t, 0);
    } else if t != "" && s[0] == t[0] {
      TextLessMeans(s[1..], t[1..]);
      if k: nat :| LessAt(s[1..], t[1..], k) {
        assert s[..k + 1] == [s[0]] + s[1..][..k] && t[..k + 1] == [t[0]] + t[1..][..k];
        assert LessAt(s, t, k + 1);
      }
      if k: nat :| LessAt(s, t, k) {
        assert s[1..][..k - 1] == s[..k][1..] && t[1..][..k - 1] == t[..k][1..];
        assert LessAt(s[1..], t[1..], k - 1);
      }
    } else if t != "" {
      assert s[0] < t[0] ==> LessAt(s, t, 0);
      assert forall k: nat :: 0 < k <= |s| && k <= |t| ==> s[..k][0] == s[0] && t[..k][0] == t[0];
    }
  }

  lemma {:induction false} TextLessAsymmetric(s: string, t: string)
    ensures !(TextLess(s, t) && TextLess(t, s))
    ensures !TextLess(s, s)
  {
    if s != "" {
      TextLessAsymmetric(s[1..], if t == "" then t else t[1..]);
    }
  }

  lemma {:induction false} TextLessTotal(s: string, t: string)
    ensures s == t || TextLess(s, t) || TextLess(t, s)
  {
    if s != "" && t != "" && s[0] == t[0] {
      TextLessTotal(s[1..], t[1..]);
      assert s == [s[0]] + s[1..] && t == [t[0]] + t[1..];
    }
  }

  lemma {:induction false} TextLessTransitive(s: string, t: string, u: string)
    requires TextLess(s, t) && TextLess(t, u)
    ensures TextLess(s, u)
  {
    if s != "" && s[0] == t[0] == u[0] {
      TextLessTransitive(s[1..], t[1..], u[1..]);
    }
  }

  /** The namespace decides, among equal ones the name, and among rows of one pod the snapshot. */
  lemma RowLessMeans(a: PodHealthRow, b: PodHealthRow)
    ensures RowLess(a, b) <==>
            if a.ns != b.ns then TextLess(a.ns, b.ns)
            else if a.name != b.name then TextLess(a.name, b.name)
            else a.snap < b.snap
  {
    TextLessAsymmetric(a.ns, a.ns);
    TextLessAsymmetric(a.name, a.name);
  }

  lemma OrderedIsGrouped(rows: seq<PodHealthRow>)
    requires Ordered(rows)
    ensures Grouped(rows)
  {
    forall i, j | 0 <= i < j < |rows| && rows[i].Key() == rows[j].Key()
      ensures rows[i].snap < rows[j].snap
    {
      assert RowLess(rows[i], rows[j]);
      TextLessAsymmetric(rows[i].ns, rows[i].ns);
      TextLessAsymmetric(rows[i].name, rows[i].name);
    }
    forall i, k, j | 0 <= i < k < j < |rows| && rows[i].Key() == rows[j].Key()
      ensures rows[k].Key() == rows[j].Key()
    {
      assert RowLess(rows[i], rows[k]) && RowLess(rows[k], rows[j]);
      TextLessAsymmetric(rows[i].ns, rows[k].ns);
      TextLessAsymmetric(rows[i].name, rows[k].name);
    }
  }

  // ---- Observations ----

  ghost function Position(ids: seq<nat>, snap: nat): (i: nat)
    requires snap in ids
    ensures i < |ids| && ids[i] == snap
  {
    var i :| 0 <= i < |ids| && ids[i] == snap;
    i
  }

  ghost function Observe(row: PodHealthRow, ids: seq<nat>): seq<Observation> {
    if row.snap in ids then
      [Observation(row.Key(), Position(ids, row.snap), row.snap, ClassifyPodHealth(row.status, row.ready))]
    else []
  }

  /** Rows of unknown snapshots are skipped. */
  ghost function Observed(rows: seq<PodHealthRow>, ids: seq<nat>): seq<Observation> {
    if rows == [] then [] else Observed(Front(rows), ids) + Observe(Last(rows), ids)
  }

  ghost function HistoriesOf(obs: seq<Observation>): Histories {
    if obs == [] then map[]
    else
      var hs := HistoriesOf(Front(obs));
      var o := Last(obs);
      hs[o.pod := Extend(if o.pod in hs then hs[o.pod] else NO_HISTORY, o.idx, o.health)]
  }

  ghost predicate OfPod(obs: seq<Observation>, pod: Pod) {
    forall k :: 0 <= k < |obs| ==> obs[k].pod == pod
  }

  ghost predicate NotOfPod(obs: seq<Observation>, pod: Pod) {
    forall k :: 0 <= k < |obs| ==> obs[k].pod != pod
  }

  ghost predicate InRange(obs: seq<Observation>, n: nat) {
    forall k :: 0 <= k < |obs| ==> 0 <= obs[k].idx < n
  }

  ghost predicate IndexIncreasing(obs: seq<Observation>) {
    forall j, k :: 0 <= j < k < |obs| ==> obs[j].idx < obs[k].idx
  }

  lemma {:induction false} HistoriesKeys(obs: seq<Observation>, pod: Pod)
    ensures pod in HistoriesOf(obs) <==> !NotOfPod(obs, pod)
  {
    if obs != [] {
      HistoriesKeys(Front(obs), pod);
      if !NotOfPod(Front(obs), pod) {
        var k :| 0 <= k < |Front(obs)| && Front(obs)[k].pod == pod;
        assert obs[k].pod == pod;
      }
      if NotOfPod(Front(obs), pod) && Last(obs).pod != pod {
        assert forall k :: 0 <= k < |obs| - 1 ==> Front(obs)[k] == obs[k];
      }
    }
  }

  /** A closed group contributes its own histories and touches no other. */
  lemma {:induction false} HistoriesOfGroups(done: seq<Observation>, group: seq<Observation>, pod: Pod)
    requires NotOfPod(done, pod) && OfPod(group, pod)
    ensures HistoriesOf(done + group) == HistoriesOf(done) + HistoriesOf(group)
  {
    if group == [] {
      assert done + group == done;
    } else {
      assert Front(done + group) == done + Front(group);
      HistoriesOfGroups(done, Front(group), pod);
      HistoriesKeys(done, pod);
      assert Last(done + group) == Last(group);
      assert Last(group).pod == pod;
    }
  }

  /** The history holds the group's observations and nothing else. */
  ghost predicate Spells(h: History, group: seq<Observation>) {
    && (forall k :: 0 <= k < |group| ==> group[k].idx in h && h[group[k].idx] == group[k].health)
    && (forall i :: i in h ==> exists k :: 0 <= k < |group| && group[k].idx == i)
  }

  lemma SpellsMore(h: History, group: seq<Observation>, o: Observation)
    requires Spells(h, group) && forall k :: 0 <= k < |group| ==> group[k].idx < o.idx
    ensures Spells(Extend(h, o.idx, o.health), group + [o])
  {
    var h', group' := Extend(h, o.idx, o.health), group + [o];
    forall i | i in h'
      ensures exists k :: 0 <= k < |group'| && group'[k].idx == i
    {
      if i in h {
        var k :| 0 <= k < |group| && group[k].idx == i;
        assert group'[k].idx == i;
      } else {
        assert group'[|group|].idx == i;
      }
    }
  }

  /** The history of one pod's group. */
  ghost function HistoryOfGroup(group: seq<Observation>): History {
    if group == [] then NO_HISTORY else Extend(HistoryOfGroup(Front(group)), Last(group).idx, Last(group).health)
  }

  lemma {:induction false} GroupSpelled(group: seq<Observation>)
    requires IndexIncreasing(group)
    ensures Spells(HistoryOfGroup(group), group)
  {
    if group != [] {
      GroupSpelled(Front(group));
      SpellsMore(HistoryOfGroup(Front(group)), Front(group), Last(group));
      assert group == Front(group) + [Last(group)];
    }
  }

  lemma {:induction false} GroupHistories(group: seq<Observation>, pod: Pod)
    requires OfPod(group, pod)
    ensures HistoriesOf(group) == if group == [] then map[] else map[pod := HistoryOfGroup(group)]
  {
    if group != [] {
      GroupHistories(Front(group), pod);
      assert Last(group).pod == pod;
    }
  }

  /** One pod's group, spelled out as a history. */
  lemma GroupHistory(group: seq<Observation>, pod: Pod)
    requires group != [] && OfPod(group, pod) && IndexIncreasing(group)
    ensures HistoriesOf(group).Keys == {pod}
    ensures Spells(HistoriesOf(group)[pod], group)
  {
    GroupHistories(group, pod);
    GroupSpelled(group);
  }

  lemma {:induction false} ObservedAppend(a: seq<PodHealthRow>, b: seq<PodHealthRow>, ids: seq<nat>)
    ensures Observed(a + b, ids) == Observed(a, ids) + Observed(b, ids)
  {
    if b == [] {
      assert a + b == a;
    } else {
      assert Front(a + b) == a + Front(b);
      ObservedAppend(a, Front(b), ids);
    }
  }

  /** Each observation comes from a row, in order. */
  lemma {:induction false} ObservedSource(rows: seq<PodHealthRow>, ids: seq<nat>, k: nat) returns (r: nat)
    requires k < |Observed(rows, ids)|
    ensures r < |rows| && rows[r].snap in ids
    ensures Observe(rows[r], ids) == [Observed(rows, ids)[k]]
    ensures |Observed(rows[..r], ids)| == k
  {
    var front := Observed(Front(rows), ids);
    if k < |front| {
      r := ObservedSource(Front(rows), ids, k);
      assert rows[..r] == Front(rows)[..r];
    } else {
      r := |rows| - 1;
    }
  }

  /** Conversely each row of a known snapshot is observed. */
  lemma {:induction false} ObservedTarget(rows: seq<PodHealthRow>, ids: seq<nat>, r: nat) returns (k: nat)
    requires r < |rows| && rows[r].snap in ids
    ensures k < |Observed(rows, ids)|
    ensures Observe(rows[r], ids) == [Observed(rows, ids)[k]]
  {
    if r == |rows| - 1 {
      k := |Observed(Front(rows), ids)|;
    } else {
      k := ObservedTarget(Front(rows), ids, r);
    }
  }

  lemma {:induction false} ObservedPods(rows: seq<PodHealthRow>, ids: seq<nat>, pod: Pod)
    ensures (forall r :: 0 <= r < |rows| ==> rows[r].Key() == pod) ==> OfPod(Observed(rows, ids), pod)
    ensures (forall r :: 0 <= r < |rows| ==> rows[r].Key() != pod) ==> NotOfPod(Observed(rows, ids), pod)
    ensures InRange(Observed(rows, ids), |ids|)
  {
    if rows != [] {
      ObservedPods(Front(rows), ids, pod);
    }
  }

  lemma {:induction false} ObservedIncreases(rows: seq<PodHealthRow>, ids: seq<nat>)
    requires Increasing(ids)
    requires forall i, j :: 0 <= i < j < |rows| ==> rows[i].snap < rows[j].snap
    ensures IndexIncreasing(Observed(rows, ids))
  {
    if rows != [] {
      ObservedIncreases(Front(rows), ids);
      var obs := Observed(Front(rows), ids);
      forall k | 0 <= k < |obs| && Last(rows).snap in ids
        ensures obs[k].idx < Position(ids, Last(rows).snap)
      {
        var r := ObservedSource(Front(rows), ids, k);
        assert ids[obs[k].idx] == rows[r].snap < Last(rows).snap;
      }
    }
  }

  // ---- The grouped scan ----

  /** After r rows: rows[b..r] are those of `pod`, no earlier row is, and `group` is what they show. */
  ghost predicate Scanning(rows: seq<PodHealthRow>, ids: seq<nat>, b: nat, r: nat, pod: Pod, group: seq<Observation>) {
    && b <= r <= |rows|
    && (r > 0 ==> b < r)
    && (forall k :: b <= k < r ==> rows[k].Key() == pod)
    && (forall k :: 0 <= k < b ==> rows[k].Key() != pod)
    && group == Observed(rows[b..r], ids)
  }

  lemma NextGroup(rows: seq<PodHealthRow>, ids: seq<nat>, b: nat, r: nat, pod: Pod, group: seq<Observation>)
    requires Grouped(rows) && Scanning(rows, ids, b, r, pod, group) && r < |rows|
    requires rows[r].Key() != pod
    ensures Scanning(rows, ids, r, r + 1, rows[r].Key(), Observe(rows[r], ids))
  {
    EarlierRowsDiffer(rows, b, r, pod);
    assert rows[r..r + 1] == [rows[r]];
    assert Observed([rows[r]], ids) == Observed([], ids) + Observe(rows[r], ids);
  }

  lemma EarlierRowsDiffer(rows: seq<PodHealthRow>, b: nat, r: nat, pod: Pod)
    requires Grouped(rows) && b <= r < |rows| && (r > 0 ==> b < r)
    requires forall k :: b <= k < r ==> rows[k].Key() == pod
    requires rows[r].Key() != pod
    ensures forall k :: 0 <= k < r ==> rows[k].Key() != rows[r].Key()
  {
    if r > 0 {
      assert rows[r - 1].Key() == pod;
    }
  }

  lemma SameGroup(rows: seq<PodHealthRow>, ids: seq<nat>, b: nat, r: nat, pod: Pod, group: seq<Observation>)
    requires Scanning(rows, ids, b, r, pod, group) && r < |rows|
    requires rows[r].Key() == pod
    ensures Scanning(rows, ids, b, r + 1, pod, group + Observe(rows[r], ids))
  {
    assert Front(rows[b..r + 1]) == rows[b..r];
  }

  lemma GroupShape(rows: seq<PodHealthRow>, ids: seq<nat>, b: nat, r: nat, pod: Pod, group: seq<Observation>)
    requires Grouped(rows) && Increasing(ids) && Scanning(rows, ids, b, r, pod, group)
    ensures OfPod(group, pod) && IndexIncreasing(group) && InRange(group, |ids|)
  {
    var part := rows[b..r];
    forall i | 0 <= i < |part|
      ensures part[i].Key() == pod
    {
      assert part[i] == rows[b + i];
    }
    forall i, j | 0 <= i < j < |part|
      ensures part[i].snap < part[j].snap
    {
      assert rows[b + i].Key() == rows[b + j].Key();
    }
    ObservedPods(part, ids, pod);
    ObservedIncreases(part, ids);
  }

  lemma GroupIsNew(rows: seq<PodHealthRow>, ids: seq<nat>, b: nat, r: nat, pod: Pod, group: seq<Observation>)
    requires Scanning(rows, ids, b, r, pod, group)
    ensures NotOfPod(Observed(rows[..b], ids), pod)
    ensures Observed(rows[..r], ids) == Observed(rows[..b], ids) + group
  {
    ObservedPods(rows[..b], ids, pod);
    assert rows[..r] == rows[..b] + rows[b..r];
    ObservedAppend(rows[..b], rows[b..r], ids);
  }
}
