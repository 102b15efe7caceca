/** The recording loop: full mode writes each capture, incidents-only mode strips it one tick late. */
module Snapshotter {
  import opened Model
  import opened Health
  import opened FileView
  import opened Pieces
  import Store

  /** A pod's identity across snapshots: its UID, or namespace and name when there is none. */
  function PodKey(r: Row): string {
    if r.uid != "" then r.uid else JoinKey(r.ns, r.name)
  }

  /** Rows with UIDs are the same pod when the UIDs are, rows without when namespace and name are, and a
      row with one is never the pod of a row without. */
  lemma PodKeyMeans(a: Row, b: Row)
    requires '/' !in a.ns && '/' !in a.uid && '/' !in b.ns && '/' !in b.uid
    ensures PodKey(a) == PodKey(b) <==> if a.uid == "" && b.uid == "" then a.ns == b.ns && a.name == b.name else a.uid == b.uid
  {
    JoinKeyInjective(a.ns, a.name, b.ns, b.name);
    assert JoinKey(a.ns, a.name)[|a.ns|] == '/' && JoinKey(b.ns, b.name)[|b.ns|] == '/';
  }

  predicate RowUnhealthy(r: Row) {
    r.kind == PODS && |r.cells| >= 4 && ClassifyPodHealth(r.cells[3], r.cells[2]) != Healthy
  }

  function UnhealthyIn(rows: seq<Row>): set<string> {
    set r | r in rows && RowUnhealthy(r) :: PodKey(r)
  }

  /** The pods among the first n rows. */
  function PodKeysIn(rows: seq<Row>, n: nat): set<string>
    requires n <= |rows|
  {
    if n == 0 then {}
    else PodKeysIn(rows, n - 1) + (if rows[n - 1].kind == PODS then {PodKey(rows[n - 1])} else {})
  }

  method PerPodUnhealthy(rows: seq<Row>) returns (out: set<string>)
    ensures out == UnhealthyIn(rows)
  {
    out := {};
    for i := 0 to |rows|
      invariant out == UnhealthyIn(rows[..i])
    {
      assert rows[..i + 1] == rows[..i] + [rows[i]];
      if rows[i].kind == PODS && |rows[i].cells| >= 4 {
        if ClassifyPodHealth(rows[i].cells[3], rows[i].cells[2]) != Healthy {
          out := out + {PodKey(rows[i])};
        }
      }
    }
    assert rows[..|rows|] == rows;
  }

  // ---- One capture: the window's pods are given, and the pods that already have a blob on disk ----

  /** Row j keeps its blob: it is no pod, its pod is in the window, or this is the pod's first sighting. */
  predicate KeepsRow(rows: seq<Row>, j: nat, window: set<string>, sentinel: set<string>)
    requires j < |rows|
  {
    rows[j].kind != PODS || PodKey(rows[j]) in window || PodKey(rows[j]) !in sentinel + PodKeysIn(rows, j)
  }

  /** What one pass over the rows makes of them: the rows with their flags, "namespace/name" of every
      pod row that keeps its blob, and how many rows were flagged. */
  datatype Pass = Pass(rows: seq<Row>, names: set<string>, stripped: nat)

  function PassOver(rows: seq<Row>, window: set<string>, sentinel: set<string>, n: nat): (p: Pass)
    requires n <= |rows|
    ensures |p.rows| == n
  {
    if n == 0 then Pass([], {}, 0)
    else
      var p := PassOver(rows, window, sentinel, n - 1);
      var r := rows[n - 1];
      if KeepsRow(rows, n - 1, window, sentinel) then
        Pass(p.rows + [r], if r.kind == PODS then p.names + {JoinKey(r.ns, r.name)} else p.names, p.stripped)
      else
        Pass(p.rows + [r.(shrunk := true)], p.names, p.stripped + 1)
  }

  function LogsOf(logs: seq<PodLog>, names: set<string>): seq<PodLog> {
    if logs == [] then []
    else LogsOf(Front(logs), names) + (if JoinKey(Last(logs).ns, Last(logs).pod) in names then [Last(logs)] else [])
  }

  /** The logs that stay keep their order. */
  lemma {:induction false} LogsOfAppend(a: seq<PodLog>, b: seq<PodLog>, names: set<string>)
    ensures LogsOf(a + b, names) == LogsOf(a, names) + LogsOf(b, names)
  {
    if b == [] {
      assert a + b == a;
    } else {
      LogsOfAppend(a, Front(b), names);
      assert Front(a + b) == a + Front(b);
    }
  }

  /** What one flush submits to the store, and how many rows it stripped. */
  datatype Submission = Submission(capture: Capture, podsShrunk: nat)

  function Stripping(c: Capture, window: set<string>, sentinel: set<string>): Submission {
    var p := PassOver(c.rows, window, sentinel, |c.rows|);
    Submission(c.(rows := p.rows, podLogs := LogsOf(c.podLogs, p.names)), p.stripped)
  }

  // ---- The stream ----

  function UnhealthyAt(caps: seq<Capture>, i: int): set<string> {
    if 0 <= i < |caps| then UnhealthyIn(caps[i].rows) else {}
  }

  /** Pods unhealthy in the capture before, in this one, or in the one after. */
  function WindowAt(caps: seq<Capture>, i: int): set<string> {
    UnhealthyAt(caps, i - 1) + UnhealthyAt(caps, i) + UnhealthyAt(caps, i + 1)
  }

  /** Pods seen in the first i captures. */
  function SeenBefore(caps: seq<Capture>, i: nat): set<string>
    requires i <= |caps|
  {
    if i == 0 then {} else SeenBefore(caps, i - 1) + PodKeysIn(caps[i - 1].rows, |caps[i - 1].rows|)
  }

  /** What the incidents-only recorder submits for the i-th capture. */
  function SubmissionOf(caps: seq<Capture>, i: nat): Submission
    requires i < |caps|
  {
    Stripping(caps[i], WindowAt(caps, i), SeenBefore(caps, i))
  }

  ghost function Submissions(caps: seq<Capture>): (out: seq<Submission>)
    ensures |out| == |caps| && forall i :: 0 <= i < |caps| ==> out[i] == SubmissionOf(caps, i)
  {
    seq(|caps|, i requires 0 <= i < |caps| => SubmissionOf(caps, i))
  }

  function Retained(caps: seq<Capture>, i: nat): Capture
    requires i < |caps|
  {
    SubmissionOf(caps, i).capture
  }

  function RetainedUpto(caps: seq<Capture>, n: nat): (out: seq<Capture>)
    requires n <= |caps|
    ensures |out| == n
    ensures forall i :: 0 <= i < n ==> out[i] == Retained(caps, i)
  {
    seq(n, i requires 0 <= i < n => Retained(caps, i))
  }

  lemma {:induction false} SeenStable(caps: seq<Capture>, cur: Capture, i: nat)
    requires i <= |caps|
    ensures SeenBefore(caps + [cur], i) == SeenBefore(caps, i)
  {
    if i > 0 {
      SeenStable(caps, cur, i - 1);
    }
  }

  /** What becomes of the last of `before` when `cur` follows. */
  ghost function Settled(before: seq<Capture>, cur: Capture): Submission
    requires before != []
  {
    SubmissionOf(before + [cur], |before| - 1)
  }

  /** What becomes of the last capture when nothing follows. */
  ghost function Final(caps: seq<Capture>): Submission
    requires caps != []
  {
    SubmissionOf(caps, |caps| - 1)
  }

  /** A capture whose successor is known is not affected by what comes later. */
  lemma SubmissionStable1(caps: seq<Capture>, cur: Capture, i: nat)
    requires i + 1 < |caps|
    ensures SubmissionOf(caps + [cur], i) == SubmissionOf(caps, i)
  {
    SeenStable(caps, cur, i);
    assert (caps + [cur])[i] == caps[i];
    assert WindowAt(caps + [cur], i) == WindowAt(caps, i);
  }

  /** The verdict on the i-th row, with the bookkeeping it brings. */
  method Decide(r: Row, window: set<string>, kept: set<string>, keepLog: set<string>, shrunk: nat,
                ghost rows: seq<Row>, ghost sentinel: set<string>, ghost i: nat)
    returns (keep: bool, kept': set<string>, keepLog': set<string>, shrunk': nat)
    requires i < |rows| && r == rows[i]
    requires kept == sentinel + PodKeysIn(rows, i)
    requires keepLog == PassOver(rows, window, sentinel, i).names
    requires shrunk == PassOver(rows, window, sentinel, i).stripped
    ensures kept' == sentinel + PodKeysIn(rows, i + 1)
    ensures keepLog' == PassOver(rows, window, sentinel, i + 1).names
    ensures shrunk' == PassOver(rows, window, sentinel, i + 1).stripped
    ensures PassOver(rows, window, sentinel, i + 1).rows ==
            PassOver(rows, window, sentinel, i).rows + [if keep then r else r.(shrunk := true)]
  {
    keep, kept', keepLog', shrunk' := true, kept, keepLog, shrunk;
    if r.kind == PODS {
      var key := PodKey(r);
      keep := key in window;
      // Until a pod has a blob on disk, keep the observation we would otherwise strip.
      if !keep && key !in kept {
        keep := true;
      }
      if keep {
        kept' := kept + {key};
        keepLog' := keepLog + {JoinKey(r.ns, r.name)};
      } else {
        shrunk' := shrunk + 1;
      }
    }
  }

  // ---- The objects ----

  /** One snapshot's data in memory, stripped in place before it is written. */
  class CapturedSnap {
    const base: Capture
    var rows: array<Row>
    var podLogs: array<PodLog>
    var logCount: nat
    var unhealthy: set<string>

    ghost predicate Valid()
      reads this, rows, podLogs
    {
      logCount <= podLogs.Length
    }

    ghost function Value(): Capture
      requires Valid()
      reads this, rows, podLogs
    {
      base.(rows := rows[..], podLogs := podLogs[..logCount])
    }

    function Read(): (c: Capture)
      requires Valid()
      reads this, rows, podLogs
      ensures c == Value()
    {
      base.(rows := rows[..], podLogs := podLogs[..logCount])
    }

    constructor (c: Capture)
      ensures Valid() && Value() == c && unhealthy == UnhealthyIn(c.rows)
      ensures fresh(rows) && fresh(podLogs)
    {
      base := c;
      var rs := new Row[|c.rows|](i requires 0 <= i < |c.rows| => c.rows[i]);
      var ls := new PodLog[|c.podLogs|](i requires 0 <= i < |c.podLogs| => c.podLogs[i]);
      rows, podLogs, logCount := rs, ls, |c.podLogs|;
      var bad := PerPodUnhealthy(c.rows);
      unhealthy := bad;
    }

    /** Flags the rows outside the window; `kept` gains every pod shown. */
    method FlagRows(window: set<string>, sentinel: set<string>) returns (shrunk: nat, kept: set<string>, keepLog: set<string>)
      modifies rows
      ensures kept == sentinel + PodKeysIn(old(rows[..]), rows.Length)
      ensures Pass(rows[..], keepLog, shrunk) == PassOver(old(rows[..]), window, sentinel, rows.Length)
    {
      ghost var was := rows[..];
      kept, keepLog, shrunk := sentinel, {}, 0;
      for i := 0 to rows.Length
        invariant forall j :: i <= j < rows.Length ==> rows[j] == was[j]
        invariant rows[..i] == PassOver(was, window, sentinel, i).rows
        invariant kept == sentinel + PodKeysIn(was, i)
        invariant keepLog == PassOver(was, window, sentinel, i).names
        invariant shrunk == PassOver(was, window, sentinel, i).stripped
      {
        var keep;
        keep, kept, keepLog, shrunk := Decide(rows[i], window, kept, keepLog, shrunk, was, sentinel, i);
        if !keep {
          rows[i] := rows[i].(shrunk := true);
        }
      }
    }

    /** Filters the logs in their own backing array. */
    method FilterLogs(keepLog: set<string>)
      requires Valid()
      modifies this`logCount, podLogs
      ensures Valid() && podLogs[..logCount] == LogsOf(old(podLogs[..logCount]), keepLog)
    {
      ghost var was := podLogs[..logCount];
      var w := 0;
      for i := 0 to logCount
        invariant w <= i && logCount == |was|
        invariant forall j :: i <= j < logCount ==> podLogs[j] == was[j]
        invariant podLogs[..w] == LogsOf(was[..i], keepLog)
      {
        var pl := podLogs[i];
        assert Front(was[..i + 1]) == was[..i];
        if JoinKey(pl.ns, pl.pod) in keepLog {
          podLogs[w] := pl;
          assert podLogs[..w] == LogsOf(was[..i], keepLog);
          w := w + 1;
        }
      }
      assert was[..|was|] == was;
      logCount := w;
    }

    /** c is what the object holds on entry. */
    method ShrinkInPlace(prev: set<string>, next: set<string>, keptSentinel: set<string>, ghost c: Capture)
      returns (out: Submission, kept: set<string>)
      requires Valid() && Value() == c && unhealthy == UnhealthyIn(c.rows)
      modifies this`logCount, rows, podLogs
      ensures Valid() && Value() == out.capture
      ensures out == Stripping(c, prev + UnhealthyIn(c.rows) + next, keptSentinel)
      ensures kept == keptSentinel + PodKeysIn(c.rows, |c.rows|)
    {
      assert rows[..] == c.rows && podLogs[..logCount] == c.podLogs;
      var shrunk, keepLog;
      shrunk, kept, keepLog := FlagRows(prev + unhealthy + next, keptSentinel);
      assert podLogs[..logCount] == c.podLogs;
      FilterLogs(keepLog);
      out := Submission(Read(), shrunk);
    }
  }

  class Recorder {
    var pending: CapturedSnap?
    var prevUnhealthy: set<string>
    var keptSentinel: set<string>
    ghost var captured: seq<Capture>   // every capture so far, the pending one last

    ghost predicate Valid()
      reads this, pending
      reads if pending != null then {pending.rows, pending.podLogs} else {}
    {
      && (pending == null <==> captured == [])
      && (pending != null ==> pending.Valid() && Holding(Last(captured)))
      && InStep(captured, prevUnhealthy, keptSentinel)
    }

    /** The pending object holds the capture c. */
    ghost predicate Holding(c: Capture)
      requires pending != null && pending.Valid()
      reads this, pending, pending.rows, pending.podLogs
    {
      pending.Value() == c && pending.unhealthy == UnhealthyIn(c.rows)
    }

    constructor ()
      ensures Valid() && captured == [] && pending == null
    {
      pending, prevUnhealthy, keptSentinel, captured := null, {}, {}, [];
    }

    /** Strips and submits the pending capture c now that its successor's health is known. */
    method Flush(nextUnhealthy: set<string>, ghost c: Capture, ghost want: Submission) returns (out: Submission)
      requires pending != null && pending.Valid() && Holding(c)
      requires want == Stripping(c, prevUnhealthy + UnhealthyIn(c.rows) + nextUnhealthy, keptSentinel)
      modifies this`prevUnhealthy, this`keptSentinel, pending`logCount, pending.rows, pending.podLogs
      ensures out == want
      ensures prevUnhealthy == UnhealthyIn(c.rows)
      ensures keptSentinel == old(keptSentinel) + PodKeysIn(c.rows, |c.rows|)
    {
      var kept;
      out, kept := pending.ShrinkInPlace(prevUnhealthy, nextUnhealthy, keptSentinel, c);
      keptSentinel := kept;
      prevUnhealthy := pending.unhealthy;
    }

    /** One tick: the previous capture is submitted, the new one is held back. */
    method Tick(cur: Capture) returns (out: Option<Submission>)
      requires Valid()
      modifies this
      modifies if pending != null then {pending, pending.rows, pending.podLogs} else {}
      ensures Valid() && captured == old(captured) + [cur]
      ensures fresh(pending) && fresh(pending.rows) && fresh(pending.podLogs)
      ensures if old(captured) == [] then out == None
              else out.Some? && out.value == Settled(old(captured), cur)
    {
      var snap := new CapturedSnap(cur);
      out := None;
      if pending != null {
        ghost var c := Last(captured);
        Advance(captured, cur, prevUnhealthy, snap.unhealthy, keptSentinel, c);
        var s := Flush(snap.unhealthy, c, Settled(captured, cur));
        out := Some(s);
      }
      Hold(snap, cur);
    }

    /** The new capture becomes the pending one. */
    method Hold(snap: CapturedSnap, ghost cur: Capture)
      requires snap.Valid() && snap.Value() == cur && snap.unhealthy == UnhealthyIn(cur.rows)
      requires InStep(captured + [cur], prevUnhealthy, keptSentinel)
      modifies this`captured, this`pending
      ensures Valid() && captured == old(captured) + [cur] && pending == snap
    {
      captured := captured + [cur];
      pending := snap;
    }

    /** Cancellation: the last capture is submitted with nothing to look forward to. */
    method Cancel() returns (out: Option<Submission>)
      requires Valid()
      modifies this`prevUnhealthy, this`keptSentinel
      modifies if pending != null then {pending, pending.rows, pending.podLogs} else {}
      ensures if old(captured) == [] then out == None
              else out.Some? && out.value == Final(old(captured))
    {
      out := None;
      if pending != null {
        Finish(captured, prevUnhealthy, keptSentinel);
        var s := Flush({}, Last(captured), Final(captured));
        out := Some(s);
      }
    }
  }

  /** What the recorder remembers about the captures before the pending one. */
  ghost predicate InStep(caps: seq<Capture>, prev: set<string>, sentinel: set<string>) {
    if caps == [] then prev == {} && sentinel == {}
    else prev == UnhealthyAt(caps, |caps| - 2) && sentinel == SeenBefore(caps, |caps| - 1)
  }

  /** The next capture settles what becomes of the pending one. */
  lemma Advance(caps: seq<Capture>, cur: Capture, prev: set<string>, next: set<string>, sentinel: set<string>, c: Capture)
    requires caps != [] && InStep(caps, prev, sentinel) && c == Last(caps) && next == UnhealthyIn(cur.rows)
    ensures Settled(caps, cur) == Stripping(c, prev + UnhealthyIn(c.rows) + next, sentinel)
    ensures InStep(caps + [cur], UnhealthyIn(c.rows), sentinel + PodKeysIn(c.rows, |c.rows|))
  {
    var n: nat := |caps| - 1;
    SeenStable(caps, cur, n);
    WindowSettled(caps, cur);
    AdvanceInStep(caps, cur, sentinel);
  }

  lemma WindowSettled(caps: seq<Capture>, cur: Capture)
    requires caps != []
    ensures WindowAt(caps + [cur], |caps| - 1) == UnhealthyAt(caps, |caps| - 2) + UnhealthyIn(Last(caps).rows) + UnhealthyIn(cur.rows)
  {
  }

  lemma AdvanceInStep(caps: seq<Capture>, cur: Capture, sentinel: set<string>)
    requires caps != [] && sentinel == SeenBefore(caps, |caps| - 1)
    ensures InStep(caps + [cur], UnhealthyIn(Last(caps).rows), sentinel + PodKeysIn(Last(caps).rows, |Last(caps).rows|))
  {
    SeenStable(caps, cur, |caps| - 1);
    assert (caps + [cur])[|caps| - 1] == Last(caps);
  }

  lemma Finish(caps: seq<Capture>, prev: set<string>, sentinel: set<string>)
    requires caps != [] && InStep(caps, prev, sentinel)
    ensures Final(caps) == Stripping(Last(caps), prev + UnhealthyIn(Last(caps).rows) + {}, sentinel)
  {
  }

  lemma {:induction false} SubmissionStable(caps: seq<Capture>, more: seq<Capture>, i: nat)
    requires i + 1 < |caps|
    ensures SubmissionOf(caps + more, i) == SubmissionOf(caps, i)
  {
    if more == [] {
      assert caps + more == caps;
    } else {
      SubmissionStable(caps, Front(more), i);
      assert caps + more == caps + Front(more) + [Last(more)];
      SubmissionStable1(caps + Front(more), Last(more), i);
    }
  }

  lemma SplitAround<T>(s: seq<T>, i: nat)
    requires i < |s|
    ensures s == s[..i] + [s[i]] + s[i + 1..]
  {
  }

  lemma SettledForGood(before: seq<Capture>, cur: Capture, more: seq<Capture>, k: nat)
    requires |before| == k + 1
    ensures Settled(before, cur) == SubmissionOf(before + [cur] + more, k)
  {
    SubmissionStable(before + [cur], more, k);
  }

  /** What the whole run makes of the capture before the i-th. */
  ghost function Due(caps: seq<Capture>, i: nat): Submission
    requires 0 < i <= |caps|
  {
    SubmissionOf(caps, i - 1)
  }

  /** What is submitted at tick i is already what the whole run makes of the capture before. */
  lemma SubmittedLate(caps: seq<Capture>, i: nat)
    requires 0 < i < |caps|
    ensures Settled(caps[..i], caps[i]) == Due(caps, i)
  {
    SplitAround(caps, i);
    SettledForGood(caps[..i], caps[i], caps[i + 1..], i - 1);
  }

  lemma DueIsSubmitted(caps: seq<Capture>, want: seq<Submission>, i: nat)
    requires want == Submissions(caps) && 0 < i <= |caps|
    ensures want[i - 1] == Due(caps, i)
  {
  }

  lemma OneMore<T>(s: seq<T>, i: nat)
    requires i < |s|
    ensures s[..i + 1] == s[..i] + [s[i]]
  {
  }

  lemma Whole<T>(s: seq<T>, n: nat)
    requires n == |s|
    ensures s[..n] == s
  {
  }

  lemma OneMoreOf<T>(s: seq<T>, i: nat, x: T)
    requires i < |s| && s[i] == x
    ensures s[..i] + [x] == s[..i + 1]
  {
  }

  /** The i-th tick of a run over caps. */
  method RecordTick(rec: Recorder, caps: seq<Capture>, i: nat) returns (out: Option<Submission>)
    requires rec.Valid() && i < |caps| && rec.captured == caps[..i]
    modifies rec
    modifies if rec.pending != null then {rec.pending, rec.pending.rows, rec.pending.podLogs} else {}
    ensures rec.Valid() && rec.captured == caps[..i + 1]
    ensures fresh(rec.pending) && fresh(rec.pending.rows) && fresh(rec.pending.podLogs)
    ensures if i == 0 then out == None else out.Some? && out.value == Due(caps, i)
  {
    OneMore(caps, i);
    if i > 0 {
      SubmittedLate(caps, i);
    }
    out := rec.Tick(caps[i]);
  }

  /** How many captures are on disk after i ticks. */
  function Flushed(i: nat): nat {
    if i == 0 then 0 else i - 1
  }

  function Captures(out: seq<Submission>): (caps: seq<Capture>)
    ensures |caps| == |out| && forall i :: 0 <= i < |out| ==> caps[i] == out[i].capture
  {
    seq(|out|, i requires 0 <= i < |out| => out[i].capture)
  }

  lemma WriteOneMore(f: File, caps: seq<Capture>, c: Capture)
    ensures WrittenOnto(f, caps + [c]) == Written(WrittenOnto(f, caps), c)
  {
    assert Front(caps + [c]) == caps;
  }

  /** The states of the file, from before the run to now: each submission was written onto the state before. */
  ghost predicate IsChain(files: seq<File>, out: seq<Submission>) {
    && |files| == |out| + 1
    && forall k :: 0 <= k < |out| ==> files[k + 1] == Written(files[k], out[k].capture)
  }

  lemma ChainOneMore(files: seq<File>, out: seq<Submission>, s: Submission, next: File)
    requires IsChain(files, out) && next == Written(files[|out|], s.capture)
    ensures IsChain(files + [next], out + [s])
  {
  }

  lemma {:induction false} ChainIsWritten(files: seq<File>, out: seq<Submission>)
    requires IsChain(files, out)
    ensures files[|out|] == WrittenOnto(files[0], Captures(out))
  {
    if out != [] {
      ChainIsWritten(Front(files), Front(out));
      assert Front(Captures(out)) == Captures(Front(out));
    }
  }

  /** The tables hold the last of these states. */
  ghost predicate Filed(db: Store.Tables, files: seq<File>, out: seq<Submission>) {
    Store.Consistent(db) && IsChain(files, out) && Store.View(db) == files[|out|]
  }

  /** Writes a submission, if there is one, behind those before it. */
  method Submit(store: Store.Store, out: seq<Submission>, s: Option<Submission>, ghost files: seq<File>)
    returns (out': seq<Submission>, ghost files': seq<File>)
    requires Filed(store.db, files, out)
    modifies store
    ensures out' == Extended(out, s) && files' != [] && files'[0] == files[0]
    ensures Filed(store.db, files', out')
  {
    out', files' := out, files;
    if s.Some? {
      var id := store.WriteSnapshot(s.value.capture);
      ChainOneMore(files, out, s.value, store.Contents());
      out', files' := out + [s.value], files + [store.Contents()];
    }
  }

  function Extended(out: seq<Submission>, s: Option<Submission>): seq<Submission> {
    if s.Some? then out + [s.value] else out
  }

  /** The i-th tick with its write. */
  method RunTick(rec: Recorder, store: Store.Store, caps: seq<Capture>, i: nat, out: seq<Submission>,
                 ghost files: seq<File>, ghost want: seq<Submission>)
    returns (out': seq<Submission>, ghost files': seq<File>)
    requires rec.Valid() && i < |caps| && rec.captured == caps[..i]
    requires want == Submissions(caps) && out == want[..Flushed(i)]
    requires Filed(store.db, files, out)
    modifies rec, store
    modifies if rec.pending != null then {rec.pending, rec.pending.rows, rec.pending.podLogs} else {}
    ensures rec.Valid() && rec.captured == caps[..i + 1]
    ensures fresh(rec.pending) && fresh(rec.pending.rows) && fresh(rec.pending.podLogs)
    ensures out' == want[..i]
    ensures Filed(store.db, files', out') && files' != [] && files'[0] == files[0]
  {
    var s := RecordTick(rec, caps, i);
    TickCompletes(caps, i, out, want, s);
    out', files' := Submit(store, out, s, files);
  }

  lemma TickCompletes(caps: seq<Capture>, i: nat, out: seq<Submission>, want: seq<Submission>, s: Option<Submission>)
    requires want == Submissions(caps) && i < |caps| && out == want[..Flushed(i)]
    requires if i == 0 then s == None else s.Some? && s.value == Due(caps, i)
    ensures Extended(out, s) == want[..i]
  {
    if s.Some? {
      DueIsSubmitted(caps, want, i);
      OneMoreOf(want, i - 1, s.value);
    }
  }

  /** Cancellation with its write. */
  method RunCancel(rec: Recorder, store: Store.Store, caps: seq<Capture>, out: seq<Submission>,
                   ghost files: seq<File>, ghost want: seq<Submission>)
    returns (out': seq<Submission>, ghost files': seq<File>)
    requires rec.Valid() && rec.captured == caps
    requires want == Submissions(caps) && out == want[..Flushed(|caps|)]
    requires Filed(store.db, files, out)
    modifies rec, store
    modifies if rec.pending != null then {rec.pending, rec.pending.rows, rec.pending.podLogs} else {}
    ensures out' == want
    ensures Filed(store.db, files', out') && files' != [] && files'[0] == files[0]
  {
    var s := rec.Cancel();
    CancelCompletes(caps, out, want, s);
    out', files' := Submit(store, out, s, files);
  }

  lemma CancelCompletes(caps: seq<Capture>, out: seq<Submission>, want: seq<Submission>, s: Option<Submission>)
    requires want == Submissions(caps) && out == want[..Flushed(|caps|)]
    requires if caps == [] then s == None else s.Some? && s.value == Final(caps)
    ensures Extended(out, s) == want
  {
    if s.Some? {
      OneMoreOf(want, |caps| - 1, s.value);
    }
    Whole(want, |caps|);
  }

  /** A whole incidents-only run, one capture a tick, ending in cancellation: every capture is submitted
      exactly once, in order, one tick late, and the file ends up with each in its retained form. */
  method RunIncidentsOnly(store: Store.Store, caps: seq<Capture>) returns (out: seq<Submission>)
    requires store.Valid()
    modifies store
    ensures out == Submissions(caps)
    ensures store.Valid() && store.Contents() == WrittenOnto(old(store.Contents()), RetainedUpto(caps, |caps|))
  {
    ghost var files;
    out, files := RunTicks(store, caps);
    ChainIsWritten(files, out);
    assert Captures(out) == RetainedUpto(caps, |caps|);
  }

  method RunTicks(store: Store.Store, caps: seq<Capture>) returns (out: seq<Submission>, ghost files: seq<File>)
    requires store.Valid()
    modifies store
    ensures out == Submissions(caps)
    ensures Filed(store.db, files, out) && files != [] && files[0] == old(store.Contents())
  {
    ghost var f, want := store.Contents(), Submissions(caps);
    var rec := new Recorder();
    out, files := [], [store.Contents()];
    for i := 0 to |caps|
      invariant fresh(rec) && rec.Valid() && rec.captured == caps[..i]
      invariant rec.pending != null ==> fresh(rec.pending) && fresh(rec.pending.rows) && fresh(rec.pending.podLogs)
      invariant out == want[..Flushed(i)]
      invariant Filed(store.db, files, out) && files != [] && files[0] == f
    {
      out, files := RunTick(rec, store, caps, i, out, files, want);
    }
    Whole(caps, |caps|);
    out, files := RunCancel(rec, store, caps, out, files, want);
  }

  /** A whole full-mode run: each capture is written as it comes. */
  method RunFull(store: Store.Store, caps: seq<Capture>)
    requires store.Valid()
    modifies store
    ensures store.Valid() && store.Contents() == WrittenOnto(old(store.Contents()), caps)
  {
    for i := 0 to |caps|
      invariant store.Valid() && store.Contents() == WrittenOnto(old(store.Contents()), caps[..i])
    {
      assert Front(caps[..i + 1]) == caps[..i];
      var id := store.WriteSnapshot(caps[i]);
    }
    assert caps[..|caps|] == caps;
  }
}
