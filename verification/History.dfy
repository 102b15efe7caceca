/**
 A pod's health over the file's snapshots, and the two things the program derives from it: which
 observations an incident window keeps, and where the timeline gets a marker.
 */
module History {
  import opened Health

  datatype Pod = Pod(ns: string, name: string)

  /** Health by snapshot index; an index without an observation is not in the map. */
  type History = map<nat, PodHealth>

  /** The history of every observed pod. */
  type Histories = map<Pod, History>

  const NO_HISTORY: History := map[]

  function Extend(h: History, i: nat, health: PodHealth): History {
    h[i := health]
  }

  // ---- Retention ----

  predicate Unhealthy(h: History, i: int) {
    i in h && h[i] != Healthy
  }

  /** Some unhealthy observation lies at most one snapshot away. */
  predicate InWindow(h: History, i: int) {
    Unhealthy(h, i - 1) || Unhealthy(h, i) || Unhealthy(h, i + 1)
  }

  predicate EverUnhealthy(h: History) {
    exists i | i in h :: Unhealthy(h, i)
  }

  predicate IsFirst(h: History, i: int) {
    i in h && forall j | j in h :: i <= j
  }

  /** The retention rule of shrinking: keep the ±1 window, or the first sighting of a pod that was
      never unhealthy. */
  predicate Important(h: History, i: int) {
    InWindow(h, i) || (!EverUnhealthy(h) && IsFirst(h, i))
  }

  /** A set of numbers with a member has a least one. */
  lemma {:induction false} FirstExists(keys: set<nat>, k: nat)
    requires k in keys
    ensures exists i :: i in keys && forall j :: j in keys ==> i <= j
  {
    if j :| j in keys && j < k {
      FirstExists(keys, j);
    } else {
      assert forall j :: j in keys ==> k <= j;
    }
  }

  /** What no stripping may touch: a pod's unhealthy observations, or the first sighting of a pod that
      was never unhealthy. */
  predicate Essential(h: History, i: int) {
    Unhealthy(h, i) || (!EverUnhealthy(h) && IsFirst(h, i))
  }

  /** Every observed pod has an essential observation. */
  lemma EssentialExists(h: History, k: nat) returns (i: nat)
    requires k in h
    ensures i in h && Essential(h, i)
  {
    if EverUnhealthy(h) {
      i :| i in h && Unhealthy(h, i);
    } else {
      FirstExists(h.Keys, k);
      i :| i in h.Keys && forall j :: j in h.Keys ==> i <= j;
    }
  }

  /** So every observed pod keeps at least one observation. */
  lemma KeepsOne(h: History, k: nat)
    requires k in h
    ensures exists i :: i in h && Important(h, i)
  {
    var i := EssentialExists(h, k);
    assert Important(h, i);
  }

  // ---- Incident markers ----

  datatype Severity = NoIncident | Yellow | Red {
    function Rank(): nat {
      match this
      case NoIncident => 0
      case Yellow => 1
      case Red => 2
    }
  }

  predicate AtMost(a: Severity, b: Severity) {
    a.Rank() <= b.Rank()
  }

  function Worse(a: Severity, b: Severity): Severity {
    if AtMost(a, b) then b else a
  }

  /** j is the observation just before i. */
  predicate IsPrevious(h: History, i: int, j: int) {
    j in h && j < i && forall k | k in h :: k <= j || i <= k
  }

  predicate TurnsBad(h: History, i: int) {
    Unhealthy(h, i) && exists j | j in h :: IsPrevious(h, i, j) && h[j] == Healthy
  }

  /** Still hard-bad at the very next snapshot, or at the end of a file of n snapshots. */
  predicate Persists(h: History, n: nat, i: int) {
    i in h && h[i] == HardBad && (i == n - 1 || (i + 1 in h && h[i + 1] == HardBad))
  }

  function MarkerAt(h: History, n: nat, i: int): Severity {
    if !TurnsBad(h, i) then NoIncident
    else if Persists(h, n, i) then Red
    else Yellow
  }

  function MarkerVector(h: History, n: nat): (v: seq<Severity>)
    ensures |v| == n
    ensures forall i :: 0 <= i < n ==> v[i] == MarkerAt(h, n, i)
  {
    seq(n, i => MarkerAt(h, n, i))
  }

  /** Markers only sit where retention keeps the pod, and so do the observations around them. */
  lemma MarkersAreKept(h: History, n: nat, i: int)
    requires MarkerAt(h, n, i) != NoIncident
    ensures Important(h, i - 1) && Important(h, i) && Important(h, i + 1)
  {
  }
}
