/** Drilling into a parent: which pods of a snapshot belong to it, and when stripping does not change that. */
module Drilldown {
  import opened Model
  import opened History
  import opened FileView
  import opened Reader
  import opened Observations
  import Store

  datatype OwnerRef = OwnerRef(kind: string, name: string)

  /** What the drill-down decodes from a resource's JSON; text that does not decode has no owners and no node. */
  datatype Decoder = Decoder(owners: Bytes -> seq<OwnerRef>, nodeName: Bytes -> string)

  const DEPLOYMENTS: Kind := "deployments.apps"
  const REPLICA_SETS: Kind := "replicasets.apps"
  const STATEFUL_SETS: Kind := "statefulsets.apps"
  const DAEMON_SETS: Kind := "daemonsets.apps"
  const JOBS: Kind := "jobs.batch"
  const CRON_JOBS: Kind := "cronjobs.batch"
  const NODES: Kind := "nodes"

  predicate IsOwnedBy(d: Decoder, raw: Bytes, kind: string, name: string) {
    OwnerRef(kind, name) in d.owners(raw)
  }

  predicate IsOwnedByAny(d: Decoder, raw: Bytes, kind: string, names: set<string>) {
    exists r | r in d.owners(raw) :: r.kind == kind && r.name in names
  }

  // ---- Specification ----

  /** The row's own content, or failing that the oldest unstripped copy of the resource. */
  ghost function Resolved(f: File, k: ResKey): Bytes {
    var raw := FetchRaw(f, k.snap, k.kind, k.ns, k.name);
    if raw.Some? && |raw.value| > 0 then raw.value
    else
      var other := FetchAnyRealBlob(f, k.kind, k.ns, k.name);
      if other.Some? then other.value else []
  }

  /** The rows of one kind at one snapshot; the empty namespace stands for all of them. */
  function RowsOfKind(f: File, snap: nat, kind: Kind, ns: string): set<ResKey> {
    set k | k in f.resources && k.snap == snap && k.kind == kind && (ns == "" || k.ns == ns)
  }

  /** Those whose content, when there is any, passes the test. */
  ghost function Matching(f: File, snap: nat, kind: Kind, ns: string, test: Bytes -> bool): set<ResKey> {
    set k | k in RowsOfKind(f, snap, kind, ns) && |Resolved(f, k)| > 0 && test(Resolved(f, k))
  }

  function PodKeys(keys: set<ResKey>): set<string> {
    set k | k in keys :: JoinKey(k.ns, k.name)
  }

  function Names(keys: set<ResKey>): set<string> {
    set k | k in keys :: k.name
  }

  ghost function OwnedPods(f: File, d: Decoder, snap: nat, ns: string, kind: string, name: string): set<ResKey> {
    Matching(f, snap, PODS, ns, raw => IsOwnedBy(d, raw, kind, name))
  }

  ghost function TwoHopPods(f: File, d: Decoder, snap: nat, ns: string, middleKind: Kind, middle: string, kind: string, name: string): set<ResKey> {
    var owned := Names(Matching(f, snap, middleKind, ns, raw => IsOwnedBy(d, raw, kind, name)));
    Matching(f, snap, PODS, ns, raw => IsOwnedByAny(d, raw, middle, owned))
  }

  ghost function DrilledRows(f: File, d: Decoder, snap: nat, kind: Kind, ns: string, name: string): set<ResKey> {
    if kind == DEPLOYMENTS then TwoHopPods(f, d, snap, ns, REPLICA_SETS, "ReplicaSet", "Deployment", name)
    else if kind == CRON_JOBS then TwoHopPods(f, d, snap, ns, JOBS, "Job", "CronJob", name)
    else if kind == STATEFUL_SETS then OwnedPods(f, d, snap, ns, "StatefulSet", name)
    else if kind == DAEMON_SETS then OwnedPods(f, d, snap, ns, "DaemonSet", name)
    else if kind == REPLICA_SETS then OwnedPods(f, d, snap, ns, "ReplicaSet", name)
    else if kind == JOBS then OwnedPods(f, d, snap, ns, "Job", name)
    else if kind == NODES then Matching(f, snap, PODS, "", raw => d.nodeName(raw) == name)
    else {}
  }

  ghost function PodFilter(f: File, d: Decoder, snap: nat, kind: Kind, ns: string, name: string): set<string> {
    PodKeys(DrilledRows(f, d, snap, kind, ns, name))
  }

  /** The row is one of the kind, with content whose owners include (kind, name). */
  ghost predicate IsChild(f: File, d: Decoder, snap: nat, rowKind: Kind, ns: string, k: ResKey, kind: string, name: string) {
    && k in f.resources && k.snap == snap && k.kind == rowKind && (ns == "" || k.ns == ns)
    && |Resolved(f, k)| > 0 && OwnerRef(kind, name) in d.owners(Resolved(f, k))
  }

  /** A pod is two hops away exactly when some row in between owns it and is owned by the parent. */
  lemma TwoHopMeans(f: File, d: Decoder, snap: nat, ns: string, middleKind: Kind, middle: string, kind: string, name: string, k: ResKey)
    ensures k in TwoHopPods(f, d, snap, ns, middleKind, middle, kind, name) <==>
            exists m :: IsChild(f, d, snap, middleKind, ns, m, kind, name) && IsChild(f, d, snap, PODS, ns, k, middle, m.name)
  {
    var owned := Matching(f, snap, middleKind, ns, raw => IsOwnedBy(d, raw, kind, name));
    if k in TwoHopPods(f, d, snap, ns, middleKind, middle, kind, name) {
      var r :| r in d.owners(Resolved(f, k)) && r.kind == middle && r.name in Names(owned);
      var m :| m in owned && m.name == r.name;
      assert OwnerRef(middle, m.name) == r;
      assert IsChild(f, d, snap, middleKind, ns, m, kind, name) && IsChild(f, d, snap, PODS, ns, k, middle, m.name);
    }
    if m :| IsChild(f, d, snap, middleKind, ns, m, kind, name) && IsChild(f, d, snap, PODS, ns, k, middle, m.name) {
      assert m in owned;
      assert m.name in Names(owned);
      assert IsOwnedByAny(d, Resolved(f, k), middle, Names(owned));
    }
  }

  /** The pod runs on the node; a node is in no namespace, so all of them count. */
  ghost predicate RunsOn(f: File, d: Decoder, snap: nat, k: ResKey, node: string) {
    k in f.resources && k.snap == snap && k.kind == "pods" && |Resolved(f, k)| > 0 && d.nodeName(Resolved(f, k)) == node
  }

  /** Pod row k belongs to the parent: by its owners, by those of a row in between, or by its node. */
  ghost predicate BelongsTo(f: File, d: Decoder, snap: nat, kind: Kind, ns: string, name: string, k: ResKey) {
    if kind == "deployments.apps" then
      exists m :: IsChild(f, d, snap, "replicasets.apps", ns, m, "Deployment", name) && IsChild(f, d, snap, "pods", ns, k, "ReplicaSet", m.name)
    else if kind == "cronjobs.batch" then
      exists m :: IsChild(f, d, snap, "jobs.batch", ns, m, "CronJob", name) && IsChild(f, d, snap, "pods", ns, k, "Job", m.name)
    else if kind == "statefulsets.apps" then IsChild(f, d, snap, "pods", ns, k, "StatefulSet", name)
    else if kind == "daemonsets.apps" then IsChild(f, d, snap, "pods", ns, k, "DaemonSet", name)
    else if kind == "replicasets.apps" then IsChild(f, d, snap, "pods", ns, k, "ReplicaSet", name)
    else if kind == "jobs.batch" then IsChild(f, d, snap, "pods", ns, k, "Job", name)
    else if kind == "nodes" then RunsOn(f, d, snap, k, name)
    else false
  }

  lemma DrilledRowsMean(f: File, d: Decoder, snap: nat, kind: Kind, ns: string, name: string, k: ResKey)
    ensures k in DrilledRows(f, d, snap, kind, ns, name) <==> BelongsTo(f, d, snap, kind, ns, name, k)
  {
    TwoHopMeans(f, d, snap, ns, REPLICA_SETS, "ReplicaSet", "Deployment", name, k);
    TwoHopMeans(f, d, snap, ns, JOBS, "Job", "CronJob", name, k);
  }

  /** A drill shows the names of exactly the pod rows that belong to the parent. */
  lemma DrillMeans(f: File, d: Decoder, snap: nat, kind: Kind, ns: string, name: string, key: string)
    ensures key in PodFilter(f, d, snap, kind, ns, name) <==>
            exists k :: BelongsTo(f, d, snap, kind, ns, name, k) && key == k.ns + "/" + k.name
  {
    forall k
      ensures k in DrilledRows(f, d, snap, kind, ns, name) <==> BelongsTo(f, d, snap, kind, ns, name, k)
    {
      DrilledRowsMean(f, d, snap, kind, ns, name, k);
    }
    if k :| k in DrilledRows(f, d, snap, kind, ns, name) && JoinKey(k.ns, k.name) == key {
      assert BelongsTo(f, d, snap, kind, ns, name, k) && key == k.ns + "/" + k.name;
    }
    if k :| BelongsTo(f, d, snap, kind, ns, name, k) && key == k.ns + "/" + k.name {
      assert k in DrilledRows(f, d, snap, kind, ns, name) && JoinKey(k.ns, k.name) == key;
    }
  }

  // ---- The program ----

  method FetchAnyReal(f: File, kind: Kind, ns: string, name: string) returns (r: Option<Bytes>)
    ensures r == FetchAnyRealBlob(f, kind, ns, name)
  {
    var snaps := RealCopies(f, kind, ns, name);
    if k :| k in snaps {
      FirstExists(snaps, k);
      var s :| s in snaps && forall t | t in snaps :: s <= t;
      r := FetchRaw(f, s, kind, ns, name);
    } else {
      r := None;
    }
  }

  method ResolveResourceBlob(f: File, k: ResKey) returns (raw: Bytes)
    ensures raw == Resolved(f, k)
  {
    var own := FetchRaw(f, k.snap, k.kind, k.ns, k.name);
    if own.Some? && |own.value| > 0 {
      return own.value;
    }
    var other := FetchAnyReal(f, k.kind, k.ns, k.name);
    raw := if other.Some? then other.value else [];
  }

  /** The row loop behind every drill: resolve, skip rows without content, test. */
  method CollectMatching(f: File, snap: nat, kind: Kind, ns: string, test: Bytes -> bool) returns (out: set<ResKey>)
    ensures out == Matching(f, snap, kind, ns, test)
  {
    out := {};
    var rows := RowsOfKind(f, snap, kind, ns);
    var todo := rows;
    while todo != {}
      invariant todo <= rows
      invariant out == set k | k in Matching(f, snap, kind, ns, test) && k !in todo
      decreases |todo|
    {
      var k :| k in todo;
      var raw := ResolveResourceBlob(f, k);
      if |raw| > 0 && test(raw) {
        out := out + {k};
      }
      todo := todo - {k};
    }
  }

  method CollectTwoHop(f: File, d: Decoder, snap: nat, ns: string, middleKind: Kind, middle: string, kind: string, name: string)
    returns (out: set<ResKey>)
    ensures out == TwoHopPods(f, d, snap, ns, middleKind, middle, kind, name)
  {
    var owned := CollectMatching(f, snap, middleKind, ns, raw => IsOwnedBy(d, raw, kind, name));
    var names := Names(owned);
    if |names| == 0 {
      assert Matching(f, snap, PODS, ns, raw => IsOwnedByAny(d, raw, middle, names)) == {};
      return {};
    }
    out := CollectMatching(f, snap, PODS, ns, raw => IsOwnedByAny(d, raw, middle, names));
  }

  method ComputePodFilter(f: File, d: Decoder, snap: nat, kind: Kind, ns: string, name: string) returns (out: set<string>)
    ensures out == PodFilter(f, d, snap, kind, ns, name)
  {
    var keys: set<ResKey> := {};
    if kind == DEPLOYMENTS {
      keys := CollectTwoHop(f, d, snap, ns, REPLICA_SETS, "ReplicaSet", "Deployment", name);
    } else if kind == CRON_JOBS {
      keys := CollectTwoHop(f, d, snap, ns, JOBS, "Job", "CronJob", name);
    } else if kind == STATEFUL_SETS {
      keys := CollectMatching(f, snap, PODS, ns, raw => IsOwnedBy(d, raw, "StatefulSet", name));
    } else if kind == DAEMON_SETS {
      keys := CollectMatching(f, snap, PODS, ns, raw => IsOwnedBy(d, raw, "DaemonSet", name));
    } else if kind == REPLICA_SETS {
      keys := CollectMatching(f, snap, PODS, ns, raw => IsOwnedBy(d, raw, "ReplicaSet", name));
    } else if kind == JOBS {
      keys := CollectMatching(f, snap, PODS, ns, raw => IsOwnedBy(d, raw, "Job", name));
    } else if kind == NODES {
      keys := CollectMatching(f, snap, PODS, "", raw => d.nodeName(raw) == name);
    }
    out := PodKeys(keys);
  }

  // ---- Drilling survives stripping ----

  ghost predicate IsRealPod(f: File, k: ResKey) {
    k in f.resources && k.kind == PODS && !f.resources[k].shrunk
  }

  /** Every unstripped copy of a pod has content. */
  ghost predicate PodsHaveContent(f: File) {
    forall k :: IsRealPod(f, k) ==> |f.resources[k].data| > 0
  }

  ghost predicate AreCopies(f: File, k: ResKey, l: ResKey) {
    IsRealPod(f, k) && IsRealPod(f, l) && PodOf(k) == PodOf(l)
  }

  /** All copies of a pod name the same owners. */
  ghost predicate OwnersStable(f: File, d: Decoder) {
    forall k, l :: AreCopies(f, k, l) ==> d.owners(f.resources[k].data) == d.owners(f.resources[l].data)
  }

  /** All copies of a pod name the same node. */
  ghost predicate NodesStable(f: File, d: Decoder) {
    forall k, l :: AreCopies(f, k, l) ==> d.nodeName(f.resources[k].data) == d.nodeName(f.resources[l].data)
  }

  /** What a drill from a parent of the kind relies on: a node asks for the pods' node, the others for
      their owners. */
  ghost predicate StableFor(f: File, d: Decoder, kind: Kind) {
    PodsHaveContent(f) && if kind == NODES then NodesStable(f, d) else OwnersStable(f, d)
  }

  /** The store never lets a stripped row show anything. */
  ghost predicate EmptyWhereStripped(f: File) {
    forall k :: k in f.resources && f.resources[k].shrunk ==> f.resources[k].data == []
  }

  lemma StoredFilesAreEmptyWhereStripped(db: Store.Tables)
    requires Store.Consistent(db)
    ensures EmptyWhereStripped(Store.View(db))
  {
  }

  /** Every pod of the file has an unstripped copy that s leaves alone. */
  ghost predicate LeavesCopies(f: File, s: set<ShrinkTarget>) {
    forall p :: p in PodsOf(f) ==> exists k :: IsLeft(f, s, p, k)
  }

  ghost predicate IsLeft(f: File, s: set<ShrinkTarget>, p: Pod, k: ResKey) {
    IsRealPod(f, k) && PodOf(k) == p && TargetKey(k) !in s
  }

  /** An unstripped captured version of the resource in row k. */
  ghost predicate IsRealCopy(f: File, k: ResKey, l: ResKey) {
    l in f.resources && !f.resources[l].shrunk && l.kind == k.kind && l.ns == k.ns && l.name == k.name
  }

  /** Any row with content resolves to that, and any other row to the oldest unstripped version of the
      resource, if there is one. */
  lemma ResolvedMeans(f: File, k: ResKey, oldest: ResKey)
    ensures k in f.resources && |f.resources[k].data| > 0 ==> Resolved(f, k) == f.resources[k].data
    ensures !(k in f.resources && |f.resources[k].data| > 0) && (forall l :: !IsRealCopy(f, k, l)) ==> Resolved(f, k) == []
    ensures !(k in f.resources && |f.resources[k].data| > 0) && IsRealCopy(f, k, oldest) &&
            (forall l :: IsRealCopy(f, k, l) ==> oldest.snap <= l.snap) ==>
              Resolved(f, k) == f.resources[oldest].data
  {
    var snaps := RealCopies(f, k.kind, k.ns, k.name);
    forall s | s in snaps
      ensures exists l :: IsRealCopy(f, k, l) && l.snap == s
    {
      var l :| l in f.resources && l.kind == k.kind && l.ns == k.ns && l.name == k.name && !f.resources[l].shrunk && l.snap == s;
      assert IsRealCopy(f, k, l);
    }
    if IsRealCopy(f, k, oldest) && forall l :: IsRealCopy(f, k, l) ==> oldest.snap <= l.snap {
      assert oldest.snap in snaps;
      assert Oldest(snaps) == oldest.snap;
      assert oldest == ResKey(oldest.snap, k.kind, k.ns, k.name);
    }
  }

  /** A row resolves to its own content or, once stripped, to the oldest unstripped version of the same
      resource. */
  lemma ResolvesToRealCopy(f: File, k: ResKey, known: ResKey) returns (copy: ResKey)
    requires EmptyWhereStripped(f) && k in f.resources && IsRealCopy(f, k, known)
    requires forall l :: IsRealCopy(f, k, l) ==> |f.resources[l].data| > 0
    ensures IsRealCopy(f, k, copy) && Resolved(f, k) == f.resources[copy].data
    ensures if f.resources[k].shrunk then forall l :: IsRealCopy(f, k, l) ==> copy.snap <= l.snap else copy == k
  {
    if !f.resources[k].shrunk {
      copy := k;
    } else {
      var snaps := RealCopies(f, k.kind, k.ns, k.name);
      assert known.snap in snaps;
      var s := Oldest(snaps);
      copy := ResKey(s, k.kind, k.ns, k.name);
      var l :| IsRealCopy(f, k, l) && l.snap == s;
      assert l == copy;
      forall l | IsRealCopy(f, k, l)
        ensures l.snap in snaps
      {
      }
    }
  }

  /** And to nothing when no unstripped version is left. */
  lemma ResolvesToNothing(f: File, k: ResKey)
    requires EmptyWhereStripped(f) && k in f.resources && forall l :: !IsRealCopy(f, k, l)
    ensures Resolved(f, k) == []
  {
    assert !IsRealCopy(f, k, k);
    forall s | s in RealCopies(f, k.kind, k.ns, k.name)
      ensures false
    {
      var l :| IsRealCopy(f, k, l) && l.snap == s;
    }
  }

  /** Copies of a pod do not differ on the test. */
  ghost predicate TestStable(f: File, test: Bytes -> bool) {
    forall k, l :: AreCopies(f, k, l) ==> test(f.resources[k].data) == test(f.resources[l].data)
  }

  lemma StrippedCopies(f: File, s: set<ShrinkTarget>, k: ResKey)
    requires IsRealPod(Strip(f, s), k)
    ensures IsRealPod(f, k) && Strip(f, s).resources[k] == f.resources[k]
  {
  }

  /** Before and after, a pod row resolves to contents that the test does not tell apart. */
  lemma PodResolvesAlike(f: File, s: set<ShrinkTarget>, k: ResKey, test: Bytes -> bool)
    requires EmptyWhereStripped(f) && PodsHaveContent(f) && TestStable(f, test) && LeavesCopies(f, s)
    requires k in f.resources && k.kind == PODS
    ensures |Resolved(f, k)| > 0 && |Resolved(Strip(f, s), k)| > 0
    ensures test(Resolved(f, k)) == test(Resolved(Strip(f, s), k))
  {
    var f' := Strip(f, s);
    assert PodOf(k) in PodsOf(f);
    var kept :| IsLeft(f, s, PodOf(k), kept);
    assert IsRealCopy(f, k, kept) && IsRealCopy(f', k, kept);
    forall l | IsRealCopy(f, k, l)
      ensures |f.resources[l].data| > 0
    {
      assert IsRealPod(f, l);
    }
    forall l | IsRealCopy(f', k, l)
      ensures |f'.resources[l].data| > 0
    {
      StrippedCopies(f, s, l);
    }
    var before := ResolvesToRealCopy(f, k, kept);
    var after := ResolvesToRealCopy(f', k, kept);
    StrippedCopies(f, s, after);
    assert AreCopies(f, before, after);
  }

  lemma OthersResolveAlike(f: File, s: set<ShrinkTarget>, k: ResKey)
    requires k.kind != PODS
    ensures Resolved(Strip(f, s), k) == Resolved(f, k)
  {
    var f' := Strip(f, s);
    assert RealCopies(f', k.kind, k.ns, k.name) == RealCopies(f, k.kind, k.ns, k.name) by {
      forall l | l in f.resources && l.kind == k.kind
        ensures f'.resources[l] == f.resources[l]
      {
      }
    }
    var snaps := RealCopies(f, k.kind, k.ns, k.name);
    if exists t :: t in snaps {
      var l :| l in f.resources && l.kind == k.kind && l.ns == k.ns && l.name == k.name && l.snap == Oldest(snaps);
      assert f'.resources[l] == f.resources[l];
    }
  }

  lemma PodsMatchAlike(f: File, s: set<ShrinkTarget>, snap: nat, ns: string, test: Bytes -> bool)
    requires EmptyWhereStripped(f) && PodsHaveContent(f) && TestStable(f, test) && LeavesCopies(f, s)
    ensures Matching(Strip(f, s), snap, PODS, ns, test) == Matching(f, snap, PODS, ns, test)
  {
    forall k | k in f.resources && k.kind == PODS
      ensures |Resolved(f, k)| > 0 && |Resolved(Strip(f, s), k)| > 0 && test(Resolved(f, k)) == test(Resolved(Strip(f, s), k))
    {
      PodResolvesAlike(f, s, k, test);
    }
    assert Strip(f, s).resources.Keys == f.resources.Keys;
  }

  lemma OthersMatchAlike(f: File, s: set<ShrinkTarget>, snap: nat, kind: Kind, ns: string, test: Bytes -> bool)
    requires kind != PODS
    ensures Matching(Strip(f, s), snap, kind, ns, test) == Matching(f, snap, kind, ns, test)
  {
    forall k | k in f.resources && k.kind == kind
      ensures Resolved(Strip(f, s), k) == Resolved(f, k)
    {
      OthersResolveAlike(f, s, k);
    }
    assert Strip(f, s).resources.Keys == f.resources.Keys;
  }

  lemma OwnedAlike(f: File, d: Decoder, s: set<ShrinkTarget>, snap: nat, ns: string, kind: string, name: string)
    requires EmptyWhereStripped(f) && PodsHaveContent(f) && OwnersStable(f, d) && LeavesCopies(f, s)
    ensures OwnedPods(Strip(f, s), d, snap, ns, kind, name) == OwnedPods(f, d, snap, ns, kind, name)
  {
    PodsMatchAlike(f, s, snap, ns, raw => IsOwnedBy(d, raw, kind, name));
  }

  lemma TwoHopAlike(f: File, d: Decoder, s: set<ShrinkTarget>, snap: nat, ns: string,
                    middleKind: Kind, middle: string, kind: string, name: string)
    requires EmptyWhereStripped(f) && PodsHaveContent(f) && OwnersStable(f, d) && LeavesCopies(f, s)
    requires middleKind != PODS
    ensures TwoHopPods(Strip(f, s), d, snap, ns, middleKind, middle, kind, name) == TwoHopPods(f, d, snap, ns, middleKind, middle, kind, name)
  {
    OthersMatchAlike(f, s, snap, middleKind, ns, raw => IsOwnedBy(d, raw, kind, name));
    var owned := Names(Matching(f, snap, middleKind, ns, raw => IsOwnedBy(d, raw, kind, name)));
    PodsMatchAlike(f, s, snap, ns, raw => IsOwnedByAny(d, raw, middle, owned));
  }

  /** A stable drill shows the same pods, whatever is stripped, as long as every pod keeps a copy. */
  lemma DrillSurvivesStripping(f: File, d: Decoder, s: set<ShrinkTarget>,
                               snap: nat, kind: Kind, ns: string, name: string)
    requires EmptyWhereStripped(f) && StableFor(f, d, kind) && LeavesCopies(f, s)
    ensures PodFilter(Strip(f, s), d, snap, kind, ns, name) == PodFilter(f, d, snap, kind, ns, name)
  {
    if kind == NODES {
      PodsMatchAlike(f, s, snap, "", raw => d.nodeName(raw) == name);
    } else if kind == DEPLOYMENTS {
      TwoHopAlike(f, d, s, snap, ns, REPLICA_SETS, "ReplicaSet", "Deployment", name);
    } else if kind == CRON_JOBS {
      TwoHopAlike(f, d, s, snap, ns, JOBS, "Job", "CronJob", name);
    } else if kind == STATEFUL_SETS {
      OwnedAlike(f, d, s, snap, ns, "StatefulSet", name);
    } else if kind == DAEMON_SETS {
      OwnedAlike(f, d, s, snap, ns, "DaemonSet", name);
    } else if kind == REPLICA_SETS {
      OwnedAlike(f, d, s, snap, ns, "ReplicaSet", name);
    } else if kind == JOBS {
      OwnedAlike(f, d, s, snap, ns, "Job", name);
    }
  }

  // ---- A drill, row by row ----

  ghost predicate PlainNamespaces(f: File) {
    forall k :: k in f.resources ==> '/' !in k.ns
  }

  /** The rows in between that the parent owns. */
  ghost function Middles(f: File, d: Decoder, snap: nat, ns: string, middleKind: Kind, kind: string, name: string): set<string> {
    Names(Matching(f, snap, middleKind, ns, raw => IsOwnedBy(d, raw, kind, name)))
  }

  /** Content that puts a pod of the snapshot under the parent. */
  ghost predicate Belongs(f: File, d: Decoder, snap: nat, kind: Kind, ns: string, name: string, raw: Bytes) {
    if kind == DEPLOYMENTS then IsOwnedByAny(d, raw, "ReplicaSet", Middles(f, d, snap, ns, REPLICA_SETS, "Deployment", name))
    else if kind == CRON_JOBS then IsOwnedByAny(d, raw, "Job", Middles(f, d, snap, ns, JOBS, "CronJob", name))
    else if kind == STATEFUL_SETS then IsOwnedBy(d, raw, "StatefulSet", name)
    else if kind == DAEMON_SETS then IsOwnedBy(d, raw, "DaemonSet", name)
    else if kind == REPLICA_SETS then IsOwnedBy(d, raw, "ReplicaSet", name)
    else if kind == JOBS then IsOwnedBy(d, raw, "Job", name)
    else kind == NODES && d.nodeName(raw) == name
  }

  /** A node drill looks at all namespaces. */
  function Scope(kind: Kind, ns: string): string {
    if kind == NODES then "" else ns
  }

  predicate InScope(kind: Kind, ns: string, podNs: string) {
    Scope(kind, ns) == "" || podNs == Scope(kind, ns)
  }

  /** The pod row in question is shown under the parent. */
  ghost predicate Answers(f: File, d: Decoder, kind: Kind, ns: string, name: string, k: ResKey) {
    |Resolved(f, k)| > 0 && Belongs(f, d, k.snap, kind, ns, name, Resolved(f, k))
  }

  lemma SameTest(f: File, snap: nat, kind: Kind, ns: string, test: Bytes -> bool, test': Bytes -> bool)
    requires forall raw :: test(raw) == test'(raw)
    ensures Matching(f, snap, kind, ns, test) == Matching(f, snap, kind, ns, test')
  {
  }

  ghost function Belonging(f: File, d: Decoder, snap: nat, kind: Kind, ns: string, name: string): set<ResKey> {
    Matching(f, snap, PODS, Scope(kind, ns), raw => Belongs(f, d, snap, kind, ns, name, raw))
  }

  lemma FilterIsBelonging(f: File, d: Decoder, snap: nat, kind: Kind, ns: string, name: string)
    ensures PodFilter(f, d, snap, kind, ns, name) == PodKeys(Belonging(f, d, snap, kind, ns, name))
  {
    var test := raw => Belongs(f, d, snap, kind, ns, name, raw);
    if kind == NODES {
      SameTest(f, snap, PODS, "", test, raw => d.nodeName(raw) == name);
    } else if kind == DEPLOYMENTS {
      var owned := Middles(f, d, snap, ns, REPLICA_SETS, "Deployment", name);
      SameTest(f, snap, PODS, ns, test, raw => IsOwnedByAny(d, raw, "ReplicaSet", owned));
    } else if kind == CRON_JOBS {
      var owned := Middles(f, d, snap, ns, JOBS, "CronJob", name);
      SameTest(f, snap, PODS, ns, test, raw => IsOwnedByAny(d, raw, "Job", owned));
    } else if kind == STATEFUL_SETS {
      SameTest(f, snap, PODS, ns, test, raw => IsOwnedBy(d, raw, "StatefulSet", name));
    } else if kind == DAEMON_SETS {
      SameTest(f, snap, PODS, ns, test, raw => IsOwnedBy(d, raw, "DaemonSet", name));
    } else if kind == REPLICA_SETS {
      SameTest(f, snap, PODS, ns, test, raw => IsOwnedBy(d, raw, "ReplicaSet", name));
    } else if kind == JOBS {
      SameTest(f, snap, PODS, ns, test, raw => IsOwnedBy(d, raw, "Job", name));
    } else {
      assert Belonging(f, d, snap, kind, ns, name) == {};
    }
  }

  lemma BelongingMeans(f: File, d: Decoder, snap: nat, kind: Kind, ns: string, name: string, k: ResKey)
    ensures k in Belonging(f, d, snap, kind, ns, name) <==>
            k in f.resources && k.kind == PODS && k.snap == snap && InScope(kind, ns, k.ns) && Answers(f, d, kind, ns, name, k)
  {
  }

  /** A drill shows a pod exactly when its row answers. */
  lemma ShownIffAnswers(f: File, d: Decoder, kind: Kind, ns: string, name: string, k: ResKey)
    requires PlainNamespaces(f) && k in f.resources && k.kind == PODS && InScope(kind, ns, k.ns)
    ensures JoinKey(k.ns, k.name) in PodFilter(f, d, k.snap, kind, ns, name) <==> Answers(f, d, kind, ns, name, k)
  {
    FilterIsBelonging(f, d, k.snap, kind, ns, name);
    BelongingMeans(f, d, k.snap, kind, ns, name, k);
    if JoinKey(k.ns, k.name) in PodKeys(Belonging(f, d, k.snap, kind, ns, name)) {
      var l :| l in Belonging(f, d, k.snap, kind, ns, name) && JoinKey(l.ns, l.name) == JoinKey(k.ns, k.name);
      BelongingMeans(f, d, k.snap, kind, ns, name, l);
      JoinKeyInjective(l.ns, l.name, k.ns, k.name);
    }
  }

  /** Every drill from a parent of the kind shows on g what it shows on f. */
  ghost predicate KeepsDrillsFrom(f: File, g: File, d: Decoder, kind: Kind) {
    forall snap, ns, name :: PodFilter(g, d, snap, kind, ns, name) == PodFilter(f, d, snap, kind, ns, name)
  }

  /** Every pod row answers every such drill on g as on f. */
  ghost predicate AnswersAlike(f: File, g: File, d: Decoder, kind: Kind) {
    forall k, ns, name :: k in f.resources && k.kind == PODS && InScope(kind, ns, k.ns) ==>
      (Answers(g, d, kind, ns, name, k) <==> Answers(f, d, kind, ns, name, k))
  }

  /** Stripping keeps the drills from a kind exactly when each row goes on answering as before: no
      assumption about copies, for any decoder. */
  lemma DrillsAreRowByRow(f: File, s: set<ShrinkTarget>, d: Decoder, kind: Kind)
    requires PlainNamespaces(f)
    ensures KeepsDrillsFrom(f, Strip(f, s), d, kind) <==> AnswersAlike(f, Strip(f, s), d, kind)
  {
    var g := Strip(f, s);
    assert g.resources.Keys == f.resources.Keys;
    if KeepsDrillsFrom(f, g, d, kind) {
      forall k, ns, name | k in f.resources && k.kind == PODS && InScope(kind, ns, k.ns)
        ensures Answers(g, d, kind, ns, name, k) <==> Answers(f, d, kind, ns, name, k)
      {
        ShownIffAnswers(f, d, kind, ns, name, k);
        ShownIffAnswers(g, d, kind, ns, name, k);
      }
    }
    if AnswersAlike(f, g, d, kind) {
      forall snap, ns, name
        ensures PodFilter(g, d, snap, kind, ns, name) == PodFilter(f, d, snap, kind, ns, name)
      {
        SameBelonging(f, g, d, snap, kind, ns, name);
      }
    }
  }

  lemma SameBelonging(f: File, g: File, d: Decoder, snap: nat, kind: Kind, ns: string, name: string)
    requires g.resources.Keys == f.resources.Keys && AnswersAlike(f, g, d, kind)
    ensures PodFilter(g, d, snap, kind, ns, name) == PodFilter(f, d, snap, kind, ns, name)
  {
    FilterIsBelonging(f, d, snap, kind, ns, name);
    FilterIsBelonging(g, d, snap, kind, ns, name);
    forall k
      ensures k in Belonging(g, d, snap, kind, ns, name) <==> k in Belonging(f, d, snap, kind, ns, name)
    {
      BelongingMeans(f, d, snap, kind, ns, name, k);
      BelongingMeans(g, d, snap, kind, ns, name, k);
    }
    assert Belonging(g, d, snap, kind, ns, name) == Belonging(f, d, snap, kind, ns, name);
  }

  /** Rows in between are never stripped, so what belongs under a parent stays the same. */
  lemma BelongsAlike(f: File, s: set<ShrinkTarget>, d: Decoder, snap: nat, kind: Kind, ns: string, name: string, raw: Bytes)
    ensures Belongs(Strip(f, s), d, snap, kind, ns, name, raw) <==> Belongs(f, d, snap, kind, ns, name, raw)
  {
    OthersMatchAlike(f, s, snap, REPLICA_SETS, ns, raw => IsOwnedBy(d, raw, "Deployment", name));
    OthersMatchAlike(f, s, snap, JOBS, ns, raw => IsOwnedBy(d, raw, "CronJob", name));
  }

  // ---- Without a copy it does not ----

  /** Whatever the JSON decodes to, every stable drill on g shows what it shows on f. */
  ghost predicate KeepsDrills(f: File, g: File) {
    forall d, snap, kind, ns, name :: StableFor(f, d, kind) ==> PodFilter(g, d, snap, kind, ns, name) == PodFilter(f, d, snap, kind, ns, name)
  }

  /** All content names the same owner. */
  function OneOwner(): Decoder {
    Decoder(_ => [OwnerRef("ReplicaSet", "")], _ => "")
  }

  lemma ShownByOwner(f: File, k: ResKey)
    requires PodsHaveContent(f) && IsRealPod(f, k)
    ensures JoinKey(k.ns, k.name) in PodFilter(f, OneOwner(), k.snap, REPLICA_SETS, k.ns, "")
  {
    assert Resolved(f, k) == f.resources[k].data;
    assert k in OwnedPods(f, OneOwner(), k.snap, k.ns, "ReplicaSet", "");
  }

  lemma HiddenFromOwner(f: File, k: ResKey)
    requires PlainNamespaces(f) && k in f.resources && k.kind == PODS && Resolved(f, k) == []
    ensures JoinKey(k.ns, k.name) !in PodFilter(f, OneOwner(), k.snap, REPLICA_SETS, k.ns, "")
  {
    forall l | l in OwnedPods(f, OneOwner(), k.snap, k.ns, "ReplicaSet", "")
      ensures JoinKey(l.ns, l.name) != JoinKey(k.ns, k.name)
    {
      JoinKeyInjective(l.ns, l.name, k.ns, k.name);
    }
  }

  lemma StrippedStaysEmpty(f: File, s: set<ShrinkTarget>)
    requires EmptyWhereStripped(f)
    ensures EmptyWhereStripped(Strip(f, s))
  {
  }

  /** A pod that loses its last copy drops out of its owner's drill. */
  lemma LostPodIsMissed(f: File, s: set<ShrinkTarget>, k: ResKey)
    requires EmptyWhereStripped(f) && PodsHaveContent(f) && PlainNamespaces(f) && IsRealPod(f, k)
    requires forall l :: !IsLeft(f, s, PodOf(k), l)
    ensures !KeepsDrills(f, Strip(f, s))
  {
    forall l
      ensures !IsRealCopy(Strip(f, s), k, l)
    {
      if IsRealCopy(Strip(f, s), k, l) {
        StrippedCopies(f, s, l);
        assert IsLeft(f, s, PodOf(k), l);
      }
    }
    StrippedStaysEmpty(f, s);
    ResolvesToNothing(Strip(f, s), k);
    ShownByOwner(f, k);
    HiddenFromOwner(Strip(f, s), k);
    assert StableFor(f, OneOwner(), REPLICA_SETS);
  }

  /** So stripping keeps every stable drill exactly when it leaves every pod a copy. */
  lemma DrillsNeedCopies(f: File, s: set<ShrinkTarget>)
    requires EmptyWhereStripped(f) && PodsHaveContent(f) && PlainNamespaces(f) && LeavesCopies(f, {})
    ensures KeepsDrills(f, Strip(f, s)) <==> LeavesCopies(f, s)
  {
    if LeavesCopies(f, s) {
      forall d, snap, kind, ns, name | StableFor(f, d, kind)
        ensures PodFilter(Strip(f, s), d, snap, kind, ns, name) == PodFilter(f, d, snap, kind, ns, name)
      {
        DrillSurvivesStripping(f, d, s, snap, kind, ns, name);
      }
    } else {
      var p :| p in PodsOf(f) && forall l :: !IsLeft(f, s, p, l);
      var k :| IsLeft(f, {}, p, k);
      LostPodIsMissed(f, s, k);
    }
  }

  // ---- Shrinking, over and over ----

  ghost predicate IsEssential(f: File, ids: seq<nat>, k: ResKey) {
    k in f.resources && k.kind == PODS && k.snap in ids && Essential(HistoryOf(f, ids, PodOf(k)), Position(ids, k.snap))
  }

  /** No essential row has been stripped. */
  ghost predicate EssentialKept(f: File, ids: seq<nat>) {
    forall k :: IsEssential(f, ids, k) ==> !f.resources[k].shrunk
  }

  /** Shrinking then leaves every pod an unstripped copy, whatever was stripped before. */
  lemma TargetsLeaveCopies(f: File, ids: seq<nat>)
    requires Lists(ids, f) && EssentialKept(f, ids)
    ensures LeavesCopies(f, TargetSet(f, ids))
  {
    forall p | p in PodsOf(f)
      ensures exists l :: IsLeft(f, TargetSet(f, ids), p, l)
    {
      var k :| k in f.resources && k.kind == PODS && PodOf(k) == p;
      assert k == KeyAt(ids, p, Position(ids, k.snap));
      var i := EssentialExists(HistoryOf(f, ids, p), Position(ids, k.snap));
      var l := KeyAt(ids, p, i);
      PositionOf(ids, i);
      TargetSetMembers(f, ids, l);
      assert IsEssential(f, ids, l);
      assert IsLeft(f, TargetSet(f, ids), p, l);
    }
  }

  /** And it strips no essential row, so it can be repeated. */
  lemma ShrinkingKeepsEssential(f: File, ids: seq<nat>)
    requires Lists(ids, f) && EssentialKept(f, ids)
    ensures Lists(ids, Shrunk(f, ids)) && EssentialKept(Shrunk(f, ids), ids)
  {
    var t := TargetSet(f, ids);
    StripKeepsHistories(f, t, ids);
    forall k | IsEssential(f, ids, k)
      ensures TargetKey(k) !in t
    {
      TargetSetMembers(f, ids, k);
    }
  }

  /** Every pod row resolves to some content. */
  ghost predicate KeepsContent(f: File) {
    forall k :: k in f.resources && k.kind == PODS ==> |Resolved(f, k)| > 0
  }

  /** What a row resolves to on g puts it under the same parents as what it resolves to on f. */
  ghost predicate ContentAlike(f: File, g: File, d: Decoder, kind: Kind) {
    forall k, ns, name :: k in f.resources && k.kind == PODS && InScope(kind, ns, k.ns) ==>
      (Belongs(f, d, k.snap, kind, ns, name, Resolved(g, k)) <==> Belongs(f, d, k.snap, kind, ns, name, Resolved(f, k)))
  }

  lemma FewerCopiesNeeded(f: File, s: set<ShrinkTarget>)
    requires LeavesCopies(f, s)
    ensures LeavesCopies(f, {})
  {
    forall p | p in PodsOf(f)
      ensures exists k :: IsLeft(f, {}, p, k)
    {
      var k :| IsLeft(f, s, p, k);
      assert IsLeft(f, {}, p, k);
    }
  }

  lemma StripLeavesContent(f: File, s: set<ShrinkTarget>)
    requires EmptyWhereStripped(f) && PodsHaveContent(f) && LeavesCopies(f, s)
    ensures KeepsContent(Strip(f, s))
  {
    forall k | k in Strip(f, s).resources && k.kind == PODS
      ensures |Resolved(Strip(f, s), k)| > 0
    {
      PodResolvesAlike(f, s, k, raw => true);
    }
  }

  lemma ContentAnswers(f: File, s: set<ShrinkTarget>, d: Decoder, kind: Kind)
    requires KeepsContent(f) && KeepsContent(Strip(f, s))
    ensures AnswersAlike(f, Strip(f, s), d, kind) <==> ContentAlike(f, Strip(f, s), d, kind)
  {
    forall k, ns, name | k in f.resources && k.kind == PODS && InScope(kind, ns, k.ns)
      ensures Answers(f, d, kind, ns, name, k) <==> Belongs(f, d, k.snap, kind, ns, name, Resolved(f, k))
      ensures Answers(Strip(f, s), d, kind, ns, name, k) <==> Belongs(f, d, k.snap, kind, ns, name, Resolved(Strip(f, s), k))
    {
      BelongsAlike(f, s, d, k.snap, kind, ns, name, Resolved(Strip(f, s), k));
      assert k in Strip(f, s).resources;
    }
  }

  /** Shrinking a stored file, shrunk before or not, leaves every pod row some content to answer with, and
      keeps the drills from a kind exactly when that content puts it where its own did; so it keeps them
      when all copies agree. */
  lemma ShrinkKeepsDrills(db: Store.Tables, ids: seq<nat>, d: Decoder, kind: Kind)
    requires Store.Consistent(db) && Lists(ids, Store.View(db)) && EssentialKept(Store.View(db), ids)
    requires PodsHaveContent(Store.View(db)) && PlainNamespaces(Store.View(db))
    ensures var f, g := Store.View(db), Shrunk(Store.View(db), ids);
            && KeepsContent(g)
            && (KeepsDrillsFrom(f, g, d, kind) <==> ContentAlike(f, g, d, kind))
            && (StableFor(f, d, kind) ==> KeepsDrillsFrom(f, g, d, kind))
  {
    var f, g := Store.View(db), Shrunk(Store.View(db), ids);
    StoredFilesAreEmptyWhereStripped(db);
    TargetsLeaveCopies(f, ids);
    FewerCopiesNeeded(f, TargetSet(f, ids));
    StripLeavesContent(f, TargetSet(f, ids));
    StripLeavesContent(f, {});
    Store.StripNothing(f);
    DrillsAreRowByRow(f, TargetSet(f, ids), d, kind);
    ContentAnswers(f, TargetSet(f, ids), d, kind);
    if StableFor(f, d, kind) {
      forall snap, ns, name
        ensures PodFilter(g, d, snap, kind, ns, name) == PodFilter(f, d, snap, kind, ns, name)
      {
        DrillSurvivesStripping(f, d, TargetSet(f, ids), snap, kind, ns, name);
      }
    }
  }
}
