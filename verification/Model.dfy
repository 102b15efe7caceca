/** The data types KronoKube records: one row per resource, one log tail per pod, one event. */
module Model {
  newtype Byte = x: int | 0 <= x < 256

  type Bytes = seq<Byte>
  type Kind = string

  const PODS: Kind := "pods"

  /** One tabular row. `shrunk` marks a row whose raw JSON is to be stripped when it is written. */
  datatype Row = Row(kind: Kind, ns: string, name: string, uid: string, cells: seq<string>, raw: Bytes, shrunk: bool)

  datatype PodLog = PodLog(ns: string, pod: string, tailLines: int, content: Bytes, errorMsg: string)

  datatype EventBody = EventBody(
    lastTs: int, firstTs: int, severity: string, reason: string,
    subject: string, subjectUid: string, count: int, message: string)

  datatype Event = Event(ns: string, name: string, body: EventBody)

  datatype KindStatus = StatusOk | StatusForbidden | StatusError | StatusSkipped

  /** A (snapshot, pod) pair whose blob and log are to be stripped. */
  datatype ShrinkTarget = ShrinkTarget(snap: nat, ns: string, pod: string)

  /** One tick's data in memory. */
  datatype Capture = Capture(
    ts: int, rows: seq<Row>, events: seq<Event>, podLogs: seq<PodLog>,
    kindStatus: map<Kind, KindStatus>, kindErrs: map<Kind, string>)

  /** A snapshot's place in the timeline. */
  datatype SnapshotInfo = SnapshotInfo(id: nat, ts: int)

  function Ids(snapshots: seq<SnapshotInfo>): (ids: seq<nat>)
    ensures |ids| == |snapshots|
    ensures forall i :: 0 <= i < |ids| ==> ids[i] == snapshots[i].id
  {
    seq(|snapshots|, i requires 0 <= i < |snapshots| => snapshots[i].id)
  }

  /** The "namespace/name" text used as a map key all over the program. */
  function JoinKey(ns: string, name: string): string {
    ns + "/" + name
  }

  /** The text determines the pair as soon as namespaces hold no slash, which Kubernetes guarantees. */
  lemma JoinKeyInjective(ns1: string, name1: string, ns2: string, name2: string)
    requires '/' !in ns1 && '/' !in ns2
    ensures JoinKey(ns1, name1) == JoinKey(ns2, name2) <==> ns1 == ns2 && name1 == name2
  {
    var k1, k2 := JoinKey(ns1, name1), JoinKey(ns2, name2);
    assert k1[|ns1|] == '/' && k2[|ns2|] == '/';
    if |ns1| < |ns2| {
      assert k2[|ns1|] == ns2[|ns1|] != '/';
    } else if |ns2| < |ns1| {
      assert k1[|ns2|] == ns1[|ns2|] != '/';
    } else {
      assert ns1 == k1[..|ns1|] && ns2 == k2[..|ns2|];
      assert name1 == k1[|ns1| + 1..] && name2 == k2[|ns2| + 1..];
    }
  }

  /** Cut at its first slash the text gives the namespace and the name back. */
  lemma JoinKeySplits(ns: string, name: string, k: nat)
    requires '/' !in ns && k < |JoinKey(ns, name)| && JoinKey(ns, name)[k] == '/' && '/' !in JoinKey(ns, name)[..k]
    ensures JoinKey(ns, name)[..k] == ns && JoinKey(ns, name)[k + 1..] == name
  {
    var key := JoinKey(ns, name);
    assert forall i :: 0 <= i < |ns| ==> key[i] == ns[i] && ns[i] in ns;
    assert forall i :: 0 <= i < k ==> key[..k][i] == key[i] && key[i] in key[..k];
    assert key[|ns|] == '/' && key[k] == '/';
    assert !(|ns| < k) && !(k < |ns|);
    assert key[..|ns|] == ns && key[|ns| + 1..] == name;
  }
}
