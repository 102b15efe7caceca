/**
 Queries over the file. A query's result set, in the order its ORDER BY promises, is an input; the
 loops that read it off and everything said about the result are here.
 */
module Reader {
  import opened Model
  import opened Health
  import opened History
  import opened Observations
  import opened FileView
  import opened Pieces
  import opened ShrinkTargets

  // ---- Snapshots ----

  /** Every snapshot once, in timestamp order. */
  ghost predicate IsSnapshotListing(f: File, snapshots: seq<SnapshotInfo>) {
    && (forall i :: 0 <= i < |snapshots| ==> snapshots[i].id in f.snaps && f.snaps[snapshots[i].id] == snapshots[i].ts)
    && (forall s :: s in f.snaps ==> s in Ids(snapshots))
    && (forall i, j :: 0 <= i < j < |snapshots| ==> snapshots[i].id != snapshots[j].id && snapshots[i].ts <= snapshots[j].ts)
  }

  /** Ids and timestamps increase together. */
  ghost predicate ClockAgrees(f: File) {
    forall a, b :: a in f.snaps && b in f.snaps && a < b ==> f.snaps[a] < f.snaps[b]
  }

  lemma ListingIncreases(f: File, snapshots: seq<SnapshotInfo>)
    requires IsSnapshotListing(f, snapshots) && ClockAgrees(f)
    ensures Increasing(Ids(snapshots))
  {
    forall i, j | 0 <= i < j < |snapshots|
      ensures snapshots[i].id < snapshots[j].id
    {
      assert f.snaps[snapshots[i].id] <= f.snaps[snapshots[j].id];
    }
  }

  // ---- Pod rows ----

  function RowOf(k: ResKey, r: Resource): PodHealthRow {
    PodHealthRow(k.snap, k.ns, k.name,
                 if |r.cells| > 3 then r.cells[3] else "",
                 if |r.cells| > 2 then r.cells[2] else "")
  }

  function PodKeyOf(row: PodHealthRow): ResKey {
    ResKey(row.snap, PODS, row.ns, row.name)
  }

  /** Every pod row once, in (namespace, name, snapshot) order. */
  ghost predicate IsPodListing(f: File, rows: seq<PodHealthRow>) {
    && Ordered(rows)
    && (forall i :: 0 <= i < |rows| ==> PodKeyOf(rows[i]) in f.resources && rows[i] == RowOf(PodKeyOf(rows[i]), f.resources[PodKeyOf(rows[i])]))
    && (forall k :: k in f.resources && k.kind == PODS ==> RowOf(k, f.resources[k]) in rows)
  }

  /** The result set of the query over pod rows: the keys in the order the query asks for. */
  ghost predicate IsPodCursor(f: File, keys: seq<ResKey>) {
    && (forall i :: 0 <= i < |keys| ==> keys[i] in f.resources && keys[i].kind == PODS)
    && (forall k :: k in f.resources && k.kind == PODS ==> k in keys)
    && (forall i, j :: 0 <= i < j < |keys| ==> RowLess(RowOf(keys[i], f.resources[keys[i]]), RowOf(keys[j], f.resources[keys[j]])))
  }

  // ---- Every file has such a result set ----

  predicate KeyLess(a: ResKey, b: ResKey) {
    TextLess(a.ns, b.ns) || (a.ns == b.ns && (TextLess(a.name, b.name) || (a.name == b.name && a.snap < b.snap)))
  }

  ghost predicate InKeyOrder(keys: seq<ResKey>) {
    forall i, j :: 0 <= i < j < |keys| ==> KeyLess(keys[i], keys[j])
  }

  lemma KeyLessTotal(a: ResKey, b: ResKey)
    requires a.kind == b.kind
    ensures a == b || KeyLess(a, b) || KeyLess(b, a)
  {
    TextLessTotal(a.ns, b.ns);
    TextLessTotal(a.name, b.name);
  }

  lemma KeyLessTransitive(a: ResKey, b: ResKey, c: ResKey)
    requires KeyLess(a, b) && KeyLess(b, c)
    ensures KeyLess(a, c)
  {
    if TextLess(a.ns, b.ns) && TextLess(b.ns, c.ns) {
      TextLessTransitive(a.ns, b.ns, c.ns);
    }
    if TextLess(a.name, b.name) && TextLess(b.name, c.name) {
      TextLessTransitive(a.name, b.name, c.name);
    }
  }

  lemma {:induction false} KeyInserted(keys: seq<ResKey>, k: ResKey) returns (out: seq<ResKey>)
    requires InKeyOrder(keys) && k !in keys && forall l :: l in keys ==> l.kind == k.kind
    ensures InKeyOrder(out) && forall l :: l in out <==> l in keys || l == k
  {
    if keys == [] {
      out := [k];
    } else {
      var last := Last(keys);
      FrontLast(keys);
      KeyLessTotal(last, k);
      if KeyLess(last, k) {
        out := keys + [k];
        forall i | 0 <= i < |keys|
          ensures KeyLess(keys[i], k)
        {
          if i < |keys| - 1 {
            KeyLessTransitive(keys[i], last, k);
          }
        }
      } else {
        var rest := KeyInserted(Front(keys), k);
        out := rest + [last];
        forall i | 0 <= i < |rest|
          ensures KeyLess(rest[i], last)
        {
          assert rest[i] in rest;
        }
      }
    }
  }

  lemma {:induction false} KeysOrdered(ks: set<ResKey>) returns (keys: seq<ResKey>)
    requires forall k, l :: k in ks && l in ks ==> k.kind == l.kind
    ensures InKeyOrder(keys) && forall k :: k in keys <==> k in ks
  {
    if ks == {} {
      keys := [];
    } else {
      var k :| k in ks;
      var rest := KeysOrdered(ks - {k});
      keys := KeyInserted(rest, k);
    }
  }

  /** The query over pod rows has a result on every file. */
  lemma PodCursorExists(f: File) returns (keys: seq<ResKey>)
    ensures IsPodCursor(f, keys)
  {
    var ks := set k | k in f.resources && k.kind == PODS;
    keys := KeysOrdered(ks);
    forall i | 0 <= i < |keys|
      ensures keys[i] in ks
    {
      assert keys[i] in keys;
    }
  }

  // ---- Reading it off ----

  method IteratePodHealthRows(f: File, keys: seq<ResKey>) returns (rows: seq<PodHealthRow>)
    requires IsPodCursor(f, keys)
    ensures IsPodListing(f, rows)
  {
    rows := [];
    for i := 0 to |keys|
      invariant |rows| == i
      invariant forall j :: 0 <= j < i ==> rows[j] == RowOf(keys[j], f.resources[keys[j]])
    {
      var cells := f.resources[keys[i]].cells;
      var ready, status := "", "";
      if |cells| > 2 {
        ready := cells[2];
      }
      if |cells| > 3 {
        status := cells[3];
      }
      rows := rows + [PodHealthRow(keys[i].snap, keys[i].ns, keys[i].name, status, ready)];
    }
    forall k | k in f.resources && k.kind == PODS
      ensures RowOf(k, f.resources[k]) in rows
    {
      var j :| 0 <= j < |keys| && keys[j] == k;
      assert rows[j] == RowOf(k, f.resources[k]);
    }
    forall j | 0 <= j < |rows|
      ensures PodKeyOf(rows[j]) == keys[j]
    {
    }
  }

  // ---- Histories of a file ----

  function PodOf(k: ResKey): Pod {
    Pod(k.ns, k.name)
  }

  function PodsOf(f: File): set<Pod> {
    set k | k in f.resources && k.kind == PODS :: PodOf(k)
  }

  /** The key of a pod's row at the i-th snapshot. */
  function KeyAt(ids: seq<nat>, p: Pod, i: nat): ResKey
    requires i < |ids|
  {
    ResKey(ids[i], PODS, p.ns, p.name)
  }

  function HistoryOf(f: File, ids: seq<nat>, p: Pod): History {
    map i: nat | 0 <= i < |ids| && KeyAt(ids, p, i) in f.resources :: CellsHealth(f.resources[KeyAt(ids, p, i)].cells)
  }

  function FileHistories(f: File, ids: seq<nat>): Histories {
    map p | p in PodsOf(f) :: HistoryOf(f, ids, p)
  }

  /** Every row belongs to a listed snapshot. */
  ghost predicate Lists(ids: seq<nat>, f: File) {
    Increasing(ids) && forall k :: k in f.resources ==> k.snap in ids
  }

  /** The (pod, snapshot) pairs that shrinking strips; rows of unknown snapshots count for nothing. */
  ghost function TargetSet(f: File, ids: seq<nat>): set<ShrinkTarget> {
    set k | k in f.resources && k.kind == PODS && k.snap in ids && !Important(HistoryOf(f, ids, PodOf(k)), Position(ids, k.snap)) :: TargetKey(k)
  }

  lemma TargetSetMembers(f: File, ids: seq<nat>, k: ResKey)
    requires Lists(ids, f) && k in f.resources && k.kind == PODS
    ensures TargetKey(k) in TargetSet(f, ids) <==> !Important(HistoryOf(f, ids, PodOf(k)), Position(ids, k.snap))
  {
    if TargetKey(k) in TargetSet(f, ids) {
      var k' :| k' in f.resources && k'.kind == PODS && TargetKey(k') == TargetKey(k) &&
                !Important(HistoryOf(f, ids, PodOf(k')), Position(ids, k'.snap));
      assert k' == k;
    }
  }

  // ---- The scanned rows spell out the file's histories ----

  ghost predicate DistinctObservations(obs: seq<Observation>) {
    forall j, k :: 0 <= j < k < |obs| ==> obs[j].pod != obs[k].pod || obs[j].idx != obs[k].idx
  }

  ghost predicate Recorded(hs: Histories, o: Observation) {
    o.pod in hs && o.idx in hs[o.pod] && hs[o.pod][o.idx] == o.health
  }

  ghost predicate IsObserved(obs: seq<Observation>, p: Pod, i: nat) {
    exists k :: 0 <= k < |obs| && obs[k].pod == p && obs[k].idx == i
  }

  lemma ObservedFront(obs: seq<Observation>, p: Pod, i: nat)
    requires obs != []
    ensures IsObserved(obs, p, i) <==> IsObserved(Front(obs), p, i) || (Last(obs).pod == p && Last(obs).idx == i)
  {
    if IsObserved(Front(obs), p, i) {
      var k :| 0 <= k < |Front(obs)| && Front(obs)[k].pod == p && Front(obs)[k].idx == i;
      assert obs[k] == Front(obs)[k];
    }
    if IsObserved(obs, p, i) {
      var k :| 0 <= k < |obs| && obs[k].pod == p && obs[k].idx == i;
      assert k < |Front(obs)| ==> Front(obs)[k] == obs[k];
    }
  }

  /** Indices in a history are exactly the observed ones. */
  lemma {:induction false} HistoryDomain(obs: seq<Observation>, p: Pod, i: nat)
    ensures (p in HistoriesOf(obs) && i in HistoriesOf(obs)[p]) <==> IsObserved(obs, p, i)
  {
    if obs != [] {
      HistoryDomain(Front(obs), p, i);
      ObservedFront(obs, p, i);
    }
  }

  lemma {:induction false} ObservationsRecorded(obs: seq<Observation>, k: nat)
    requires DistinctObservations(obs) && k < |obs|
    ensures Recorded(HistoriesOf(obs), obs[k])
  {
    if k < |obs| - 1 {
      assert DistinctObservations(Front(obs));
      ObservationsRecorded(Front(obs), k);
      assert Front(obs)[k] == obs[k];
    }
  }

  lemma {:induction false} HistoriesDomain(obs: seq<Observation>, p: Pod)
    ensures p in HistoriesOf(obs) <==> exists k :: 0 <= k < |obs| && obs[k].pod == p
  {
    HistoriesKeys(obs, p);
  }

  lemma ListedObservation(f: File, ids: seq<nat>, rows: seq<PodHealthRow>, k: nat)
    requires IsPodListing(f, rows) && Lists(ids, f) && k < |Observed(rows, ids)|
    ensures var o := Observed(rows, ids)[k];
            && o.idx < |ids| && ids[o.idx] == o.snap
            && KeyAt(ids, o.pod, o.idx) in f.resources
            && o.health == CellsHealth(f.resources[KeyAt(ids, o.pod, o.idx)].cells)
  {
    var r := ObservedSource(rows, ids, k);
    assert [Observed(rows, ids)[k]][0] == Observe(rows[r], ids)[0];
  }

  lemma ListedRowObserved(f: File, ids: seq<nat>, rows: seq<PodHealthRow>, p: Pod, i: nat) returns (k: nat)
    requires IsPodListing(f, rows) && Lists(ids, f) && i < |ids| && KeyAt(ids, p, i) in f.resources
    ensures k < |Observed(rows, ids)| && Observed(rows, ids)[k].pod == p && Observed(rows, ids)[k].idx == i
  {
    var key := KeyAt(ids, p, i);
    var r :| 0 <= r < |rows| && rows[r] == RowOf(key, f.resources[key]);
    k := ObservedTarget(rows, ids, r);
    assert [Observed(rows, ids)[k]][0] == Observe(rows[r], ids)[0];
    assert ids[Position(ids, ids[i])] == ids[i];
  }

  lemma ObservedOnce(rows: seq<PodHealthRow>, ids: seq<nat>)
    requires Grouped(rows)
    ensures DistinctObservations(Observed(rows, ids))
  {
    var obs := Observed(rows, ids);
    forall j, k | 0 <= j < k < |obs|
      ensures obs[j].pod != obs[k].pod || obs[j].idx != obs[k].idx
    {
      var r := ObservedSource(rows, ids, j);
      var s := ObservedSource(rows, ids, k);
      assert [obs[j]][0] == Observe(rows[r], ids)[0] && [obs[k]][0] == Observe(rows[s], ids)[0];
      assert r != s;
    }
  }

  lemma ScannedHistories(f: File, ids: seq<nat>, rows: seq<PodHealthRow>)
    requires IsPodListing(f, rows) && Lists(ids, f)
    ensures HistoriesOf(Observed(rows, ids)) == FileHistories(f, ids)
  {
    var hs, fs := HistoriesOf(Observed(rows, ids)), FileHistories(f, ids);
    OrderedIsGrouped(rows);
    ObservedOnce(rows, ids);
    forall p
      ensures p in hs <==> p in fs
    {
      SamePods(f, ids, rows, p);
    }
    forall p | p in hs
      ensures hs[p] == fs[p]
    {
      SameHistory(f, ids, rows, p);
    }
    SameTable(hs, fs);
  }

  lemma SameTable(hs: Histories, fs: Histories)
    requires forall p :: p in hs <==> p in fs
    requires forall p :: p in hs ==> hs[p] == fs[p]
    ensures hs == fs
  {
  }

  lemma SamePods(f: File, ids: seq<nat>, rows: seq<PodHealthRow>, p: Pod)
    requires IsPodListing(f, rows) && Lists(ids, f)
    ensures p in HistoriesOf(Observed(rows, ids)) <==> p in FileHistories(f, ids)
  {
    var obs := Observed(rows, ids);
    HistoriesDomain(obs, p);
    if k :| 0 <= k < |obs| && obs[k].pod == p {
      ListedObservation(f, ids, rows, k);
      assert PodOf(KeyAt(ids, p, obs[k].idx)) == p;
    }
    if p in PodsOf(f) {
      var key :| key in f.resources && key.kind == PODS && PodOf(key) == p;
      assert key == KeyAt(ids, p, Position(ids, key.snap));
      var k := ListedRowObserved(f, ids, rows, p, Position(ids, key.snap));
    }
  }

  lemma SameHistory(f: File, ids: seq<nat>, rows: seq<PodHealthRow>, p: Pod)
    requires IsPodListing(f, rows) && Lists(ids, f)
    requires DistinctObservations(Observed(rows, ids)) && p in HistoriesOf(Observed(rows, ids))
    ensures HistoriesOf(Observed(rows, ids))[p] == HistoryOf(f, ids, p)
  {
    var h, h' := HistoriesOf(Observed(rows, ids))[p], HistoryOf(f, ids, p);
    forall i: nat
      ensures i in h <==> i in h'
      ensures i in h ==> h[i] == h'[i]
    {
      if i in h {
        ScannedEntry(f, ids, rows, p, i);
      }
      if i in h' {
        StoredEntry(f, ids, rows, p, i);
      }
    }
    SameEntries(h, h');
  }

  lemma SameEntries(h: History, h': History)
    requires forall i: nat :: (i in h <==> i in h') && (i in h ==> h[i] == h'[i])
    ensures h == h'
  {
  }

  /** What the scan records is stored. */
  lemma ScannedEntry(f: File, ids: seq<nat>, rows: seq<PodHealthRow>, p: Pod, i: nat)
    requires IsPodListing(f, rows) && Lists(ids, f)
    requires DistinctObservations(Observed(rows, ids)) && p in HistoriesOf(Observed(rows, ids))
    requires i in HistoriesOf(Observed(rows, ids))[p]
    ensures i in HistoryOf(f, ids, p) && HistoriesOf(Observed(rows, ids))[p][i] == HistoryOf(f, ids, p)[i]
  {
    var obs := Observed(rows, ids);
    HistoryDomain(obs, p, i);
    var k :| 0 <= k < |obs| && obs[k].pod == p && obs[k].idx == i;
    ListedObservation(f, ids, rows, k);
    ObservationsRecorded(obs, k);
  }

  /** What is stored is scanned. */
  lemma StoredEntry(f: File, ids: seq<nat>, rows: seq<PodHealthRow>, p: Pod, i: nat)
    requires IsPodListing(f, rows) && Lists(ids, f)
    requires p in HistoriesOf(Observed(rows, ids)) && i in HistoryOf(f, ids, p)
    ensures i in HistoriesOf(Observed(rows, ids))[p]
  {
    HistoryDomain(Observed(rows, ids), p, i);
    var k := ListedRowObserved(f, ids, rows, p, i);
  }

  lemma ScannedIsTarget(f: File, ids: seq<nat>, rows: seq<PodHealthRow>, t: ShrinkTarget)
    requires IsPodListing(f, rows) && Lists(ids, f) && t in TargetsOf(Observed(rows, ids))
    ensures t in TargetSet(f, ids)
  {
    var obs := Observed(rows, ids);
    ScannedHistories(f, ids, rows);
    StrippedMembers(HistoriesOf(obs), obs, t);
    var k :| 0 <= k < |obs| && TargetOf(obs[k]) == t && !Keeps(HistoriesOf(obs), obs[k]);
    ListedObservation(f, ids, rows, k);
    TargetOfKey(f, ids, obs[k].pod, obs[k].idx);
  }

  lemma TargetSource(f: File, ids: seq<nat>, t: ShrinkTarget) returns (k: ResKey)
    requires t in TargetSet(f, ids)
    ensures k in f.resources && k.kind == PODS && k.snap in ids && TargetKey(k) == t
  {
    k :| k in f.resources && k.kind == PODS && k.snap in ids && !Important(HistoryOf(f, ids, PodOf(k)), Position(ids, k.snap)) && TargetKey(k) == t;
  }

  lemma TargetIsScanned(f: File, ids: seq<nat>, rows: seq<PodHealthRow>, t: ShrinkTarget)
    requires IsPodListing(f, rows) && Lists(ids, f) && t in TargetSet(f, ids)
    ensures t in TargetsOf(Observed(rows, ids))
  {
    var obs := Observed(rows, ids);
    var key := TargetSource(f, ids, t);
    var i := Position(ids, key.snap);
    assert key == KeyAt(ids, PodOf(key), i);
    var k := ListedRowObserved(f, ids, rows, PodOf(key), i);
    ListedObservation(f, ids, rows, k);
    TargetOfKey(f, ids, PodOf(key), i);
    ScannedHistories(f, ids, rows);
    StrippedMembers(HistoriesOf(obs), obs, t);
  }

  /** The scan over the listed rows finds exactly the file's targets. */
  lemma ScannedTargets(f: File, ids: seq<nat>, rows: seq<PodHealthRow>)
    requires IsPodListing(f, rows) && Lists(ids, f)
    ensures (set t | t in TargetsOf(Observed(rows, ids))) == TargetSet(f, ids)
  {
    forall t
      ensures t in TargetsOf(Observed(rows, ids)) <==> t in TargetSet(f, ids)
    {
      if t in TargetsOf(Observed(rows, ids)) {
        ScannedIsTarget(f, ids, rows, t);
      }
      if t in TargetSet(f, ids) {
        TargetIsScanned(f, ids, rows, t);
      }
    }
  }

  lemma TargetOfKey(f: File, ids: seq<nat>, p: Pod, i: nat)
    requires Lists(ids, f) && i < |ids| && KeyAt(ids, p, i) in f.resources
    ensures p in FileHistories(f, ids)
    ensures ShrinkTarget(ids[i], p.ns, p.name) in TargetSet(f, ids) <==> !Important(FileHistories(f, ids)[p], i)
  {
    var k := KeyAt(ids, p, i);
    assert PodOf(k) == p;
    PositionOf(ids, i);
    TargetSetMembers(f, ids, k);
  }

  lemma PositionOf(ids: seq<nat>, i: nat)
    requires Increasing(ids) && i < |ids|
    ensures Position(ids, ids[i]) == i
  {
  }

  /** No target is listed twice. */
  lemma {:induction false} TargetsAreDistinct(hs: Histories, obs: seq<Observation>)
    requires forall j, k :: 0 <= j < k < |obs| ==> TargetOf(obs[j]) != TargetOf(obs[k])
    ensures forall a, b :: 0 <= a < b < |Stripped(hs, obs)| ==> Stripped(hs, obs)[a] != Stripped(hs, obs)[b]
  {
    if obs != [] {
      TargetsAreDistinct(hs, Front(obs));
      StrippedMembers(hs, Front(obs), TargetOf(Last(obs)));
      forall k | 0 <= k < |Front(obs)|
        ensures TargetOf(Front(obs)[k]) != TargetOf(Last(obs))
      {
        assert Front(obs)[k] == obs[k];
      }
    }
  }

  // ---- Stripping leaves the cells, so it leaves every history ----

  lemma StripKeepsHistories(f: File, s: set<ShrinkTarget>, ids: seq<nat>)
    ensures PodsOf(Strip(f, s)) == PodsOf(f)
    ensures forall p :: HistoryOf(Strip(f, s), ids, p) == HistoryOf(f, ids, p)
    ensures FileHistories(Strip(f, s), ids) == FileHistories(f, ids)
    ensures Lists(ids, f) ==> Lists(ids, Strip(f, s))
  {
    var f' := Strip(f, s);
    assert f'.resources.Keys == f.resources.Keys;
    forall p
      ensures HistoryOf(f', ids, p) == HistoryOf(f, ids, p)
    {
    }
  }

  lemma StripKeepsTargets(f: File, s: set<ShrinkTarget>, ids: seq<nat>)
    ensures TargetSet(Strip(f, s), ids) == TargetSet(f, ids)
  {
    StripKeepsHistories(f, s, ids);
    assert Strip(f, s).resources.Keys == f.resources.Keys;
  }

  lemma StripKeepsListing(f: File, s: set<ShrinkTarget>, rows: seq<PodHealthRow>)
    requires IsPodListing(f, rows)
    ensures IsPodListing(Strip(f, s), rows)
  {
  }

  lemma StripKeepsCursor(f: File, s: set<ShrinkTarget>, keys: seq<ResKey>)
    requires IsPodCursor(f, keys)
    ensures IsPodCursor(Strip(f, s), keys)
  {
  }

  // ---- Shrinking a file ----

  ghost function Shrunk(f: File, ids: seq<nat>): File {
    Strip(f, TargetSet(f, ids))
  }

  /** Shrinking again finds the same targets and changes nothing. */
  lemma ShrinkIsIdempotent(f: File, ids: seq<nat>)
    ensures TargetSet(Shrunk(f, ids), ids) == TargetSet(f, ids)
    ensures Shrunk(Shrunk(f, ids), ids) == Shrunk(f, ids)
    ensures NewlyMarked(Shrunk(f, ids), TargetSet(f, ids)) == {} && DroppedLogs(Shrunk(f, ids), TargetSet(f, ids)) == {}
  {
    StripKeepsTargets(f, TargetSet(f, ids), ids);
    StripTwice(f, TargetSet(f, ids), TargetSet(f, ids));
  }

  // ---- A file has one listing ----

  lemma RowLessAsymmetric(a: PodHealthRow, b: PodHealthRow)
    ensures !(RowLess(a, b) && RowLess(b, a)) && !RowLess(a, a)
  {
    TextLessAsymmetric(a.ns, b.ns);
    TextLessAsymmetric(a.name, b.name);
  }

  ghost predicate SameRows(a: seq<PodHealthRow>, b: seq<PodHealthRow>) {
    forall row :: row in a <==> row in b
  }

  lemma BothHaveRows(a: seq<PodHealthRow>, b: seq<PodHealthRow>)
    requires SameRows(a, b) && b != []
    ensures a != []
  {
    assert b[0] in a;
  }

  lemma LastIsLargest(rows: seq<PodHealthRow>, row: PodHealthRow)
    requires Ordered(rows) && row in rows
    ensures row == Last(rows) || RowLess(row, Last(rows))
  {
    var i :| 0 <= i < |rows| && rows[i] == row;
  }

  lemma FrontLacksLast(rows: seq<PodHealthRow>)
    requires Ordered(rows) && rows != []
    ensures Last(rows) !in Front(rows) && Ordered(Front(rows))
  {
    forall i | 0 <= i < |Front(rows)|
      ensures rows[i] != Last(rows)
    {
      RowLessAsymmetric(rows[i], rows[i]);
    }
  }

  lemma {:induction false} OrderDetermines(a: seq<PodHealthRow>, b: seq<PodHealthRow>)
    requires Ordered(a) && Ordered(b) && SameRows(a, b)
    ensures a == b
  {
    if b != [] {
      BothHaveRows(a, b);
    }
    if a != [] {
      BothHaveRows(b, a);
      assert Last(a) in b;
      LastIsLargest(b, Last(a));
      LastIsLargest(a, Last(b));
      RowLessAsymmetric(Last(a), Last(b));
      FrontLacksLast(a);
      FrontLacksLast(b);
      SameFronts(a, b);
      OrderDetermines(Front(a), Front(b));
    }
  }

  lemma SameFronts(a: seq<PodHealthRow>, b: seq<PodHealthRow>)
    requires a != [] && b != [] && SameRows(a, b) && Last(a) == Last(b)
    requires Last(a) !in Front(a) && Last(b) !in Front(b)
    ensures SameRows(Front(a), Front(b))
  {
    assert a == Front(a) + [Last(a)] && b == Front(b) + [Last(b)];
    forall row
      ensures row in Front(a) <==> row in Front(b)
    {
      assert row in Front(a) <==> row in a && row != Last(a);
      assert row in Front(b) <==> row in b && row != Last(b);
    }
  }

  lemma ListedRows(f: File, rows: seq<PodHealthRow>, row: PodHealthRow)
    requires IsPodListing(f, rows)
    ensures row in rows <==> PodKeyOf(row) in f.resources && row == RowOf(PodKeyOf(row), f.resources[PodKeyOf(row)])
  {
  }

  /** The rows read after stripping are the rows read before, so the scan gives the same target list. */
  lemma ListingSurvivesStripping(f: File, s: set<ShrinkTarget>, before: seq<PodHealthRow>, after: seq<PodHealthRow>)
    requires IsPodListing(f, before) && IsPodListing(Strip(f, s), after)
    ensures before == after
  {
    StripKeepsListing(f, s, before);
    forall row
      ensures row in before <==> row in after
    {
      ListedRows(Strip(f, s), before, row);
      ListedRows(Strip(f, s), after, row);
    }
    OrderDetermines(before, after);
  }
}
