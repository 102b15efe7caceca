/** Pod health, derived from the STATUS and READY cells alone. */
module Health {
  datatype PodHealth = Healthy | SoftBad | HardBad

  const HARD_BAD_STATUSES: set<string> := {
    "CrashLoopBackOff", "Error", "Failed", "ImagePullBackOff", "ErrImagePull", "InvalidImageName",
    "CreateContainerConfigError", "CreateContainerError", "PreCreateHookError", "PreStartHookError",
    "PostStartHookError", "RunContainerError", "ImageInspectError", "OOMKilled", "Evicted",
    "DeadlineExceeded", "NodeLost", "ContainerStatusUnknown"}

  const SOFT_BAD_STATUSES: set<string> := {
    "Pending", "Terminating", "ContainerCreating", "PodInitializing", "Unknown", "NotReady",
    "SchedulingDisabled", "NodeAffinity", "PodScheduled", "ContainerStarting"}

  /** The white space that the source's text trimming removes (the Unicode White_Space property). */
  predicate IsSpace(c: char) {
    var n := c as int;
    9 <= n <= 13 || n == 0x20 || n == 0x85 || n == 0xA0 || n == 0x1680 || 0x2000 <= n <= 0x200a ||
    n == 0x2028 || n == 0x2029 || n == 0x202f || n == 0x205f || n == 0x3000
  }

  function TrimLeft(s: string): string {
    if s != "" && IsSpace(s[0]) then TrimLeft(s[1..]) else s
  }

  function TrimRight(s: string): string {
    if s != "" && IsSpace(s[|s| - 1]) then TrimRight(s[..|s| - 1]) else s
  }

  function TrimSpace(s: string): string {
    TrimRight(TrimLeft(s))
  }

  ghost predicate AllSpace(s: string) {
    forall i :: 0 <= i < |s| ==> IsSpace(s[i])
  }

  lemma {:induction false} TrimLeftMeans(s: string)
    ensures TrimLeft(s) == "" || !IsSpace(TrimLeft(s)[0])
    ensures |TrimLeft(s)| <= |s| && TrimLeft(s) == s[|s| - |TrimLeft(s)|..] && AllSpace(s[..|s| - |TrimLeft(s)|])
  {
    if s != "" && IsSpace(s[0]) {
      TrimLeftMeans(s[1..]);
      var n := |s| - |TrimLeft(s)|;
      assert s[..n] == [s[0]] + s[1..][..n - 1];
    }
  }

  lemma {:induction false} TrimRightMeans(s: string)
    ensures TrimRight(s) == "" || !IsSpace(TrimRight(s)[|TrimRight(s)| - 1])
    ensures |TrimRight(s)| <= |s| && TrimRight(s) == s[..|TrimRight(s)|] && AllSpace(s[|TrimRight(s)|..])
  {
    if s != "" && IsSpace(s[|s| - 1]) {
      var front := s[..|s| - 1];
      TrimRightMeans(front);
      var n := |TrimRight(s)|;
      assert s[n..] == front[n..] + [s[|s| - 1]];
    }
  }

  /** Trimming takes white space off both ends, all of it and nothing else. */
  lemma TrimMeans(s: string) returns (l: string, r: string)
    ensures s == l + TrimSpace(s) + r && AllSpace(l) && AllSpace(r)
    ensures TrimSpace(s) == "" || (!IsSpace(TrimSpace(s)[0]) && !IsSpace(TrimSpace(s)[|TrimSpace(s)| - 1]))
  {
    var t := TrimLeft(s);
    TrimLeftMeans(s);
    TrimRightMeans(t);
    l, r := s[..|s| - |t|], t[|TrimSpace(s)|..];
    assert t == TrimSpace(s) + r;
    assert s == l + t;
  }

  /** Index of the first `c` in `s`, or -1. */
  function IndexOf(s: string, c: char): (i: int)
    ensures -1 <= i < |s|
    ensures i == -1 <==> c !in s
    ensures 0 <= i ==> s[i] == c && c !in s[..i]
  {
    if s == "" then -1
    else if s[0] == c then 0
    else
      var j := IndexOf(s[1..], c);
      if j < 0 then -1
      else
        assert s[..j + 1] == [s[0]] + s[1..][..j];
        j + 1
  }

  lemma {:induction false} IndexOfFirst(s: string, c: char, k: nat)
    requires k < |s| && s[k] == c && c !in s[..k]
    ensures IndexOf(s, c) == k
  {
    if k > 0 {
      assert s[0] == s[..k][0];
      assert s[1..][..k - 1] == s[..k][1..];
      IndexOfFirst(s[1..], c, k - 1);
    }
  }

  predicate IsReadyComplete(cell: string) {
    var slash := IndexOf(cell, '/');
    if slash <= 0 || slash == |cell| - 1 then false
    else
      var a := TrimSpace(cell[..slash]);
      var b := TrimSpace(cell[slash + 1..]);
      !(a == "" || b == "" || a == "0" || a != b)
  }

  /** A cell l/r is complete when both sides read the same, and neither nothing nor 0. */
  lemma ReadyCompleteMeans(l: string, r: string)
    requires '/' !in l
    ensures IsReadyComplete(l + "/" + r) <==> TrimSpace(l) == TrimSpace(r) && TrimSpace(l) != "" && TrimSpace(l) != "0"
  {
    var cell := l + "/" + r;
    assert cell[..|l|] == l && cell[|l|] == '/' && cell[|l| + 1..] == r;
    IndexOfFirst(cell, '/', |l|);
  }

  predicate HasPrefix(s: string, p: string) {
    p <= s
  }

  function ClassifyPodHealth(statusCell: string, readyCell: string): PodHealth {
    var status := TrimSpace(statusCell);
    var ready := TrimSpace(readyCell);
    if HasPrefix(status, "Init:") || HasPrefix(status, "Signal:") then SoftBad
    else if HasPrefix(status, "Sig:") || HasPrefix(status, "ExitCode:") then HardBad
    else if status in HARD_BAD_STATUSES then HardBad
    else if status in SOFT_BAD_STATUSES then SoftBad
    else if status == "Running" then
      if ready != "" && !IsReadyComplete(ready) then HardBad else Healthy
    else if status == "Succeeded" || status == "Completed" then Healthy
    else if status != "" then SoftBad
    else Healthy
  }

  /** What the file reader makes of a pod's cells: missing READY and STATUS cells read as "". */
  function CellsHealth(cells: seq<string>): PodHealth {
    var ready := if |cells| > 2 then cells[2] else "";
    var status := if |cells| > 3 then cells[3] else "";
    ClassifyPodHealth(status, ready)
  }

  /** The recorder skips rows with fewer than four cells; the reader classifies them all the same.
      Both arrive at the same verdict. */
  lemma RecorderAndReaderAgree(cells: seq<string>)
    ensures CellsHealth(cells) != Healthy <==>
            |cells| >= 4 && ClassifyPodHealth(cells[3], cells[2]) != Healthy
    ensures |cells| >= 4 ==> CellsHealth(cells) == ClassifyPodHealth(cells[3], cells[2])
  {
  }

  // ---- READY cells: what the extractor prints, the classifier reads back ----

  function Digit(d: nat): (c: char)
    requires d < 10
    ensures c as int == '0' as int + d
  {
    ('0' as int + d) as char
  }

  function Decimal(n: nat): (s: string)
    ensures s != ""
  {
    if n < 10 then [Digit(n)] else Decimal(n / 10) + [Digit(n % 10)]
  }

  /** The READY cell printed for a pod with the given counts. */
  function ReadyText(ready: nat, total: nat): string {
    Decimal(ready) + "/" + Decimal(total)
  }

  // ---- Reading numbers ----

  function DigitValue(c: char): nat {
    if IsDigit(c) then c as int - '0' as int else 0
  }

  /** Reads on from the left, having read acc so far. */
  function ReadOn(acc: nat, s: string): nat
    decreases s
  {
    if s == "" then acc else ReadOn(10 * acc + DigitValue(s[0]), s[1..])
  }

  lemma {:induction false} ReadParts(acc: nat, s: string, t: string)
    ensures ReadOn(acc, s + t) == ReadOn(ReadOn(acc, s), t)
    decreases s
  {
    if s == "" {
      assert s + t == t;
    } else {
      assert (s + t)[1..] == s[1..] + t;
      ReadParts(10 * acc + DigitValue(s[0]), s[1..], t);
    }
  }

  lemma ReadDigit(acc: nat, d: nat)
    requires d < 10
    ensures ReadOn(acc, [Digit(d)]) == 10 * acc + d
  {
    assert [Digit(d)][1..] == "";
  }

  lemma ReadZero()
    ensures ReadOn(0, "0") == 0
  {
    assert "0"[1..] == "";
  }

  /** The usual way to write n: digits without a needless zero in front, which read as n. */
  ghost predicate IsNumeral(s: string, n: nat) {
    && s != "" && (forall i :: 0 <= i < |s| ==> IsDigit(s[i]))
    && (s[0] == '0' ==> s == "0")
    && ReadOn(0, s) == n
  }

  lemma {:induction false} DecimalIsNumeral(n: nat)
    ensures IsNumeral(Decimal(n), n)
  {
    if n < 10 {
      ReadDigit(0, n);
    } else {
      var front := Decimal(n / 10);
      DecimalIsNumeral(n / 10);
      ReadParts(0, front, [Digit(n % 10)]);
      ReadDigit(n / 10, n % 10);
      assert Decimal(n)[0] == front[0];
      ReadZero();
    }
  }

  /** The text before the first slash is the ready count, and the text behind it the total. */
  ghost predicate Reports(cell: string, ready: nat, total: nat) {
    var slash := IndexOf(cell, '/');
    slash >= 0 && IsNumeral(cell[..slash], ready) && IsNumeral(cell[slash + 1..], total)
  }

  lemma ReadyTextReports(ready: nat, total: nat)
    ensures Reports(ReadyText(ready, total), ready, total)
  {
    var cell, a := ReadyText(ready, total), Decimal(ready);
    DecimalIsNumeral(ready);
    DecimalIsNumeral(total);
    assert cell[..|a|] == a && cell[|a| + 1..] == Decimal(total);
    IndexOfFirst(cell, '/', |a|);
  }

  // ---- Counting ready containers ----

  /** What a pod reports about one of its containers; only the ready flag counts here. */
  datatype ContainerStatus = ContainerStatus(ready: bool)

  function CountReady(statuses: seq<ContainerStatus>): nat {
    if statuses == [] then 0
    else CountReady(statuses[..|statuses| - 1]) + (if statuses[|statuses| - 1].ready then 1 else 0)
  }

  function ReadyOnes(statuses: seq<ContainerStatus>): set<nat> {
    set k: nat | k < |statuses| && statuses[k].ready
  }

  lemma {:induction false} CountReadyMeans(statuses: seq<ContainerStatus>)
    ensures CountReady(statuses) == |ReadyOnes(statuses)|
  {
    if statuses == [] {
      assert ReadyOnes(statuses) == {};
    } else {
      var n: nat := |statuses| - 1;
      CountReadyMeans(statuses[..n]);
      assert ReadyOnes(statuses) == ReadyOnes(statuses[..n]) + (if statuses[n].ready then {n} else {});
      assert n !in ReadyOnes(statuses[..n]);
    }
  }

  /** `containers` is the number of containers in the pod's spec. */
  method PodReady(statuses: seq<ContainerStatus>, containers: nat) returns (cell: string)
    ensures cell == ReadyText(CountReady(statuses), if containers == 0 then |statuses| else containers)
    ensures Reports(cell, |set k: nat | k < |statuses| && statuses[k].ready|, if containers == 0 then |statuses| else containers)
  {
    var total := containers;
    var ready := 0;
    for i := 0 to |statuses|
      invariant ready == CountReady(statuses[..i])
    {
      assert statuses[..i + 1][..i] == statuses[..i];
      if statuses[i].ready {
        ready := ready + 1;
      }
    }
    assert statuses[..|statuses|] == statuses;
    if total == 0 {
      total := |statuses|;
    }
    cell := Decimal(ready) + "/" + Decimal(total);
    CountReadyMeans(statuses);
    assert ReadyOnes(statuses) == set k: nat | k < |statuses| && statuses[k].ready;
    ReadyTextReports(ready, total);
  }

  predicate IsDigit(c: char) {
    '0' <= c <= '9'
  }

  lemma {:induction false} DecimalDigits(n: nat)
    ensures forall i :: 0 <= i < |Decimal(n)| ==> IsDigit(Decimal(n)[i])
  {
    if n >= 10 {
      DecimalDigits(n / 10);
    }
  }

  lemma {:induction false} DecimalInjective(a: nat, b: nat)
    ensures Decimal(a) == Decimal(b) <==> a == b
  {
    var s, t := Decimal(a), Decimal(b);
    if a >= 10 && b >= 10 {
      assert s[..|s| - 1] == Decimal(a / 10) && t[..|t| - 1] == Decimal(b / 10);
      assert s[|s| - 1] == Digit(a % 10) && t[|t| - 1] == Digit(b % 10);
      DecimalInjective(a / 10, b / 10);
    } else if a < 10 && b < 10 {
      assert s[0] == Digit(a) && t[0] == Digit(b);
    } else {
      assert |s| != |t|;
    }
  }

  lemma TrimNothing(s: string)
    requires s != "" ==> !IsSpace(s[0]) && !IsSpace(s[|s| - 1])
    ensures TrimSpace(s) == s
  {
  }

  /** Printing and parsing a READY cell agree: only a full, non-zero count reads back as complete. */
  lemma ReadyRoundTrip(a: nat, b: nat)
    ensures IsReadyComplete(ReadyText(a, b)) <==> a == b && b > 0
  {
    var da, db := Decimal(a), Decimal(b);
    var cell := ReadyText(a, b);
    DecimalDigits(a);
    DecimalDigits(b);
    var slash := IndexOf(cell, '/');
    assert cell[..|da|] == da;
    IndexOfFirst(cell, '/', |da|);
    assert cell[..slash] == da && cell[slash + 1..] == db;
    TrimNothing(da);
    TrimNothing(db);
    DecimalInjective(a, b);
    DecimalInjective(a, 0);
    assert Decimal(0) == "0";
  }

  /** A Running pod is healthy exactly when its ready count equals a non-zero total. */
  lemma RunningHealthIsFullReadiness(ready: nat, total: nat)
    ensures ClassifyPodHealth("Running", ReadyText(ready, total)) ==
            if ready == total && total > 0 then Healthy else HardBad
  {
    var cell := ReadyText(ready, total);
    DecimalDigits(ready);
    DecimalDigits(total);
    assert cell[0] == Decimal(ready)[0];
    assert cell[|cell| - 1] == Decimal(total)[|Decimal(total)| - 1];
    TrimNothing(cell);
    TrimNothing("Running");
    ReadyRoundTrip(ready, total);
    RunningIsNotListed();
  }

  lemma RunningIsNotListed()
    ensures "Running" !in HARD_BAD_STATUSES && "Running" !in SOFT_BAD_STATUSES
    ensures !HasPrefix("Running", "Init:") && !HasPrefix("Running", "Signal:")
    ensures !HasPrefix("Running", "Sig:") && !HasPrefix("Running", "ExitCode:")
  {
    assert "Running"[1] == 'u';
    forall s | s in HARD_BAD_STATUSES + SOFT_BAD_STATUSES
      ensures s != "Running"
    {
      assert |s| != 7 || s[0] != 'R';
    }
    assert "Signal:"[0] != "Running"[0];
    assert "Sig:"[0] != "Running"[0];
    assert "Init:"[0] != "Running"[0];
    assert "ExitCode:"[0] != "Running"[0];
  }

  // ---- What the verdicts mean ----

  /** Exactly these pods are healthy. */
  lemma HealthyMeans(status: string, ready: string)
    ensures ClassifyPodHealth(status, ready) == Healthy <==>
            var s, r := TrimSpace(status), TrimSpace(ready);
            s == "" || s == "Succeeded" || s == "Completed" || (s == "Running" && (r == "" || IsReadyComplete(r)))
  {
    RunningIsNotListed();
    FinishedIsNotListed();
  }

  /** And these are hard-bad; Init: and Signal: phases never are. */
  lemma HardBadMeans(status: string, ready: string)
    ensures ClassifyPodHealth(status, ready) == HardBad <==>
            var s, r := TrimSpace(status), TrimSpace(ready);
            HasPrefix(s, "Sig:") || HasPrefix(s, "ExitCode:") || s in HARD_BAD_STATUSES ||
            (s == "Running" && r != "" && !IsReadyComplete(r))
  {
    var s := TrimSpace(status);
    RunningIsNotListed();
    if HasPrefix(s, "Init:") || HasPrefix(s, "Signal:") {
      StartingIsNotListed(s);
    }
  }

  lemma FinishedIsNotListed()
    ensures forall s :: s in {"", "Succeeded", "Completed"} ==> s !in HARD_BAD_STATUSES + SOFT_BAD_STATUSES
    ensures forall s :: s in {"", "Succeeded", "Completed"} ==>
              !HasPrefix(s, "Init:") && !HasPrefix(s, "Signal:") && !HasPrefix(s, "Sig:") && !HasPrefix(s, "ExitCode:")
  {
    assert "Init:"[0] == 'I' && "Signal:"[1] == 'i' && "Sig:"[1] == 'i' && "ExitCode:"[0] == 'E';
    forall s | s in HARD_BAD_STATUSES + SOFT_BAD_STATUSES
      ensures s != "" && s != "Succeeded" && s != "Completed"
    {
      assert |s| != 9 || (s[0] != 'S' && s[4] != 'l');
    }
  }

  lemma StartingIsNotListed(s: string)
    requires HasPrefix(s, "Init:") || HasPrefix(s, "Signal:")
    ensures s !in HARD_BAD_STATUSES && s != "Running" && !HasPrefix(s, "Sig:") && !HasPrefix(s, "ExitCode:")
  {
    var colon := if HasPrefix(s, "Init:") then 4 else 6;
    assert s[colon] == ':';
    assert s[0] == 'I' || (s[0] == 'S' && s[3] == 'n');
    assert "Sig:"[0] == 'S' && "Sig:"[3] == ':' && "ExitCode:"[0] == 'E';
    ListedHaveNoColon();
    assert ':' in s;
  }

  lemma ListedHaveNoColon()
    ensures forall t :: t in HARD_BAD_STATUSES ==> ':' !in t
  {
  }

  lemma {:induction false} AllReadyCount(statuses: seq<ContainerStatus>)
    ensures CountReady(statuses) <= |statuses|
    ensures CountReady(statuses) == |statuses| <==> forall i :: 0 <= i < |statuses| ==> statuses[i].ready
  {
    if statuses != [] {
      AllReadyCount(statuses[..|statuses| - 1]);
    }
  }

  /** A Running pod that reports on all its containers is healthy exactly when there are some and all are ready. */
  lemma {:induction false} HealthyIffAllReady(statuses: seq<ContainerStatus>)
    ensures ClassifyPodHealth("Running", ReadyText(CountReady(statuses), |statuses|)) == Healthy <==>
            statuses != [] && forall i :: 0 <= i < |statuses| ==> statuses[i].ready
  {
    AllReadyCount(statuses);
    RunningHealthIsFullReadiness(CountReady(statuses), |statuses|);
  }
}
