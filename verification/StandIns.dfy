/**
 Which content answers for a stripped row, and when it gives the right answer. The program takes the
 oldest unstripped copy of the same name for a good stand-in, as a pod's owners and node do not change.
 They do when a name is taken over, and a pod that waits to be scheduled has no node yet.
 */
module StandIns {
  import opened Model
  import opened Health
  import opened FileView
  import opened Reader
  import opened Drilldown
  import opened Runs
  import opened Retention
  import opened Survival
  import History
  import Store

  /** A rule that says which captured pod rows keep their content. */
  type Rule = (int, int) -> bool

  ghost function ByShrinker(caps: seq<Capture>): Rule {
    (i: int, j: int) => IsPodRow(caps, i, j) && KeptOffline(caps, i, PodAt(caps, i, j))
  }

  ghost function ByRecorder(caps: seq<Capture>): Rule {
    (i: int, j: int) => IsPodRow(caps, i, j) && OwnReason(caps, i, j)
  }

  ghost function ByBoth(caps: seq<Capture>): Rule {
    (i: int, j: int) => ByRecorder(caps)(i, j) && ByShrinker(caps)(i, j)
  }

  /** The cut strips just the rows that the rule does not keep. */
  ghost predicate CutsBy(caps: seq<Capture>, cut: set<ShrinkTarget>, keep: Rule) {
    forall i, j :: IsPodRow(caps, i, j) ==> (RowTarget(caps, i, j) in cut <==> !keep(i, j))
  }

  lemma RulesCut(caps: seq<Capture>)
    requires GoodRun(caps)
    ensures CutsBy(caps, Offline(caps), ByShrinker(caps)) && CutsBy(caps, Online(caps), ByRecorder(caps))
    ensures CutsBy(caps, Online(caps) + Offline(caps), ByBoth(caps))
  {
    forall i, j | IsPodRow(caps, i, j)
      ensures RowTarget(caps, i, j) in Offline(caps) <==> !ByShrinker(caps)(i, j)
      ensures RowTarget(caps, i, j) in Online(caps) <==> !ByRecorder(caps)(i, j)
    {
      OfflineRule(caps, i, j);
      OnlineVerdict(caps, i, j);
    }
  }

  // ---- The stand-in ----

  ghost predicate KeptRow(caps: seq<Capture>, keep: Rule, i: int, j: int, p: History.Pod) {
    Shows(caps, i, j, p) && keep(i, j)
  }

  /** The first kept row of the name stands in for the others. */
  ghost predicate StandsIn(caps: seq<Capture>, keep: Rule, i: int, j: int, p: History.Pod) {
    KeptRow(caps, keep, i, j, p) && forall x, y :: KeptRow(caps, keep, x, y, p) ==> i <= x
  }

  lemma {:induction false} StandInExists(caps: seq<Capture>, keep: Rule, x: int, y: int, p: History.Pod) returns (i: int, j: int)
    requires KeptRow(caps, keep, x, y, p)
    ensures StandsIn(caps, keep, i, j, p)
    decreases x
  {
    if x', y' :| KeptRow(caps, keep, x', y', p) && x' < x {
      i, j := StandInExists(caps, keep, x', y', p);
    } else {
      i, j := x, y;
    }
  }

  lemma StandInIsUnique(caps: seq<Capture>, keep: Rule, i: int, j: int, i': int, j': int, p: History.Pod)
    requires OneRowPerPod(caps) && StandsIn(caps, keep, i, j, p) && StandsIn(caps, keep, i', j', p)
    ensures i' == i && j' == j
  {
  }

  function KeyAtRow(caps: seq<Capture>, i: int, j: int): ResKey
    requires IsPodRow(caps, i, j)
  {
    RowKey(i + 1, caps[i].rows[j])
  }

  /** A kept row is in the stripped file with its content. */
  lemma KeptIsReal(caps: seq<Capture>, cut: set<ShrinkTarget>, i: int, j: int)
    requires GoodRun(caps) && IsPodRow(caps, i, j) && RowTarget(caps, i, j) !in cut
    ensures IsRealPod(Strip(FullFile(caps), cut), KeyAtRow(caps, i, j))
    ensures Strip(FullFile(caps), cut).resources[KeyAtRow(caps, i, j)].data == caps[i].rows[j].raw
  {
    RowsAreStored(caps, i, j);
    assert caps[i].rows[j] in caps[i].rows;
  }

  /** And every real copy there is a kept row. */
  lemma RealIsKept(caps: seq<Capture>, cut: set<ShrinkTarget>, keep: Rule, k: ResKey) returns (i: int, j: int)
    requires GoodRun(caps) && CutsBy(caps, cut, keep) && IsRealPod(Strip(FullFile(caps), cut), k)
    ensures KeptRow(caps, keep, i, j, PodOf(k)) && k == KeyAtRow(caps, i, j)
    ensures Strip(FullFile(caps), cut).resources[k].data == caps[i].rows[j].raw
  {
    StrippedCopies(FullFile(caps), cut, k);
    i, j := StoredAreRows(caps, k);
    RowsAreStored(caps, i, j);
    assert caps[i].rows[j] in caps[i].rows;
    RealIsUncut(FullFile(caps), cut, k);
    assert IsPodRow(caps, i, j);
  }

  lemma RealIsUncut(f: File, cut: set<ShrinkTarget>, k: ResKey)
    requires IsRealPod(Strip(f, cut), k)
    ensures TargetKey(k) !in cut
  {
  }

  lemma StrippedFileIsPlain(caps: seq<Capture>, cut: set<ShrinkTarget>)
    requires GoodRun(caps) && RowsHaveContent(caps)
    ensures EmptyWhereStripped(Strip(FullFile(caps), cut)) && PodsHaveContent(Strip(FullFile(caps), cut))
  {
    FullFileIsPlain(caps);
    StrippedStaysEmpty(FullFile(caps), cut);
    forall k | IsRealPod(Strip(FullFile(caps), cut), k)
      ensures |Strip(FullFile(caps), cut).resources[k].data| > 0
    {
      StrippedCopies(FullFile(caps), cut, k);
    }
  }

  /** A kept row resolves to its own content. */
  lemma KeptResolves(caps: seq<Capture>, cut: set<ShrinkTarget>, i: int, j: int)
    requires GoodRun(caps) && RowsHaveContent(caps) && IsPodRow(caps, i, j) && RowTarget(caps, i, j) !in cut
    ensures Resolved(Strip(FullFile(caps), cut), KeyAtRow(caps, i, j)) == caps[i].rows[j].raw
  {
    KeptIsReal(caps, cut, i, j);
  }

  /** A stripped row resolves to the content of its stand-in. */
  lemma StrippedResolves(caps: seq<Capture>, cut: set<ShrinkTarget>, keep: Rule, i: int, j: int, i': int, j': int)
    requires GoodRun(caps) && RowsHaveContent(caps) && CutsBy(caps, cut, keep)
    requires IsPodRow(caps, i, j) && !keep(i, j) && StandsIn(caps, keep, i', j', PodAt(caps, i, j))
    ensures Resolved(Strip(FullFile(caps), cut), KeyAtRow(caps, i, j)) == caps[i'].rows[j'].raw
  {
    var g, k, known := Strip(FullFile(caps), cut), KeyAtRow(caps, i, j), KeyAtRow(caps, i', j');
    StrippedFileIsPlain(caps, cut);
    KeptIsReal(caps, cut, i', j');
    StrippedRowIsMarked(caps, cut, i, j);
    var copy := OldestStandsIn(g, k, known);
    var x, y := RealIsKept(caps, cut, keep, copy);
    assert copy == known;
  }

  lemma StrippedRowIsMarked(caps: seq<Capture>, cut: set<ShrinkTarget>, i: int, j: int)
    requires GoodRun(caps) && IsPodRow(caps, i, j) && RowTarget(caps, i, j) in cut
    ensures KeyAtRow(caps, i, j) in Strip(FullFile(caps), cut).resources
    ensures Strip(FullFile(caps), cut).resources[KeyAtRow(caps, i, j)].shrunk
  {
    RowsAreStored(caps, i, j);
  }

  lemma OldestStandsIn(g: File, k: ResKey, known: ResKey) returns (copy: ResKey)
    requires EmptyWhereStripped(g) && PodsHaveContent(g)
    requires k in g.resources && k.kind == PODS && g.resources[k].shrunk && IsRealCopy(g, k, known)
    ensures IsRealPod(g, copy) && PodOf(copy) == PodOf(k) && copy.snap <= known.snap && Resolved(g, k) == g.resources[copy].data
  {
    forall l | IsRealCopy(g, k, l)
      ensures |g.resources[l].data| > 0
    {
      assert IsRealPod(g, l);
    }
    copy := ResolvesToRealCopy(g, k, known);
  }

  lemma CopyIsKept(caps: seq<Capture>, cut: set<ShrinkTarget>, keep: Rule, k: ResKey, l: ResKey)
    requires GoodRun(caps) && CutsBy(caps, cut, keep) && k.kind == PODS
    ensures IsRealCopy(Strip(FullFile(caps), cut), k, l) ==> exists x, y :: KeptRow(caps, keep, x, y, PodOf(k))
  {
    if IsRealCopy(Strip(FullFile(caps), cut), k, l) {
      assert PodOf(l) == PodOf(k);
      var x, y := RealIsKept(caps, cut, keep, l);
      assert KeptRow(caps, keep, x, y, PodOf(k));
    }
  }

  /** Without one it resolves to nothing. */
  lemma LostResolves(caps: seq<Capture>, cut: set<ShrinkTarget>, keep: Rule, i: int, j: int)
    requires GoodRun(caps) && RowsHaveContent(caps) && CutsBy(caps, cut, keep) && IsPodRow(caps, i, j)
    requires forall x, y :: !KeptRow(caps, keep, x, y, PodAt(caps, i, j))
    ensures Resolved(Strip(FullFile(caps), cut), KeyAtRow(caps, i, j)) == []
  {
    StrippedFileIsPlain(caps, cut);
    assert !KeptRow(caps, keep, i, j, PodAt(caps, i, j));
    StrippedRowIsMarked(caps, cut, i, j);
    forall l
      ensures !IsRealCopy(Strip(FullFile(caps), cut), KeyAtRow(caps, i, j), l)
    {
      CopyIsKept(caps, cut, keep, KeyAtRow(caps, i, j), l);
    }
    ResolvesToNothing(Strip(FullFile(caps), cut), KeyAtRow(caps, i, j));
  }

  // ---- When it answers as the row would ----

  /** Content that puts row (i, j) under the parent. */
  ghost predicate RowBelongs(caps: seq<Capture>, d: Decoder, kind: Kind, ns: string, name: string, i: nat, raw: Bytes) {
    Belongs(FullFile(caps), d, i + 1, kind, ns, name, raw)
  }

  /** The row has a stand-in, and its content puts the row under the parent. */
  ghost predicate StandInBelongs(caps: seq<Capture>, keep: Rule, d: Decoder, kind: Kind, ns: string, name: string, i: int, j: int)
    requires IsPodRow(caps, i, j)
  {
    exists x, y :: StandsIn(caps, keep, x, y, PodAt(caps, i, j)) && RowBelongs(caps, d, kind, ns, name, i, caps[x].rows[y].raw)
  }

  ghost predicate RowRepresented(caps: seq<Capture>, keep: Rule, d: Decoder, kind: Kind, i: int, j: int)
    requires IsPodRow(caps, i, j)
  {
    forall ns, name :: InScope(kind, ns, caps[i].rows[j].ns) ==>
      (RowBelongs(caps, d, kind, ns, name, i, caps[i].rows[j].raw) <==> StandInBelongs(caps, keep, d, kind, ns, name, i, j))
  }

  /** Each stripped row's stand-in belongs under the parents of the kind that the row itself belongs under. */
  ghost predicate Represented(caps: seq<Capture>, keep: Rule, d: Decoder, kind: Kind) {
    forall i, j :: IsPodRow(caps, i, j) && !keep(i, j) ==> RowRepresented(caps, keep, d, kind, i, j)
  }

  lemma FullAnswer(caps: seq<Capture>, d: Decoder, kind: Kind, ns: string, name: string, i: int, j: int)
    requires GoodRun(caps) && RowsHaveContent(caps) && IsPodRow(caps, i, j)
    ensures Answers(FullFile(caps), d, kind, ns, name, KeyAtRow(caps, i, j)) <==> RowBelongs(caps, d, kind, ns, name, i, caps[i].rows[j].raw)
  {
    KeptResolves(caps, {}, i, j);
    Store.StripNothing(FullFile(caps));
  }

  lemma KeptAnswer(caps: seq<Capture>, cut: set<ShrinkTarget>, d: Decoder, kind: Kind, ns: string, name: string, i: int, j: int)
    requires GoodRun(caps) && RowsHaveContent(caps) && IsPodRow(caps, i, j) && RowTarget(caps, i, j) !in cut
    ensures Answers(Strip(FullFile(caps), cut), d, kind, ns, name, KeyAtRow(caps, i, j)) <==>
            RowBelongs(caps, d, kind, ns, name, i, caps[i].rows[j].raw)
  {
    KeptResolves(caps, cut, i, j);
    BelongsAlike(FullFile(caps), cut, d, i + 1, kind, ns, name, caps[i].rows[j].raw);
  }

  lemma StrippedAnswer(caps: seq<Capture>, cut: set<ShrinkTarget>, keep: Rule, d: Decoder, kind: Kind, ns: string, name: string, i: int, j: int)
    requires GoodRun(caps) && RowsHaveContent(caps) && CutsBy(caps, cut, keep) && IsPodRow(caps, i, j) && !keep(i, j)
    ensures Answers(Strip(FullFile(caps), cut), d, kind, ns, name, KeyAtRow(caps, i, j)) <==>
            StandInBelongs(caps, keep, d, kind, ns, name, i, j)
  {
    if x, y :| KeptRow(caps, keep, x, y, PodAt(caps, i, j)) {
      var x', y' := StandInExists(caps, keep, x, y, PodAt(caps, i, j));
      GoodRunsHaveOneRowPerPod(caps);
      StandInBelongsMeans(caps, keep, d, kind, ns, name, i, j, x', y');
      StrippedResolves(caps, cut, keep, i, j, x', y');
      BelongsAlike(FullFile(caps), cut, d, i + 1, kind, ns, name, caps[x'].rows[y'].raw);
    } else {
      LostResolves(caps, cut, keep, i, j);
    }
  }

  lemma StandInBelongsMeans(caps: seq<Capture>, keep: Rule, d: Decoder, kind: Kind, ns: string, name: string, i: int, j: int, x: int, y: int)
    requires OneRowPerPod(caps) && IsPodRow(caps, i, j) && StandsIn(caps, keep, x, y, PodAt(caps, i, j))
    ensures StandInBelongs(caps, keep, d, kind, ns, name, i, j) <==> RowBelongs(caps, d, kind, ns, name, i, caps[x].rows[y].raw)
  {
    if x', y' :| StandsIn(caps, keep, x', y', PodAt(caps, i, j)) && RowBelongs(caps, d, kind, ns, name, i, caps[x'].rows[y'].raw) {
      StandInIsUnique(caps, keep, x, y, x', y', PodAt(caps, i, j));
    }
  }

  /** Stripping keeps the drills from a kind exactly when every stripped row is represented. */
  lemma DrillsNeedStandIns(caps: seq<Capture>, cut: set<ShrinkTarget>, keep: Rule, d: Decoder, kind: Kind)
    requires GoodRun(caps) && RowsHaveContent(caps) && CutsBy(caps, cut, keep)
    ensures KeepsDrillsFrom(FullFile(caps), Strip(FullFile(caps), cut), d, kind) <==> Represented(caps, keep, d, kind)
  {
    FullFileIsPlain(caps);
    DrillsAreRowByRow(FullFile(caps), cut, d, kind);
    if Represented(caps, keep, d, kind) {
      forall k, ns, name | k in FullFile(caps).resources && k.kind == PODS && InScope(kind, ns, k.ns)
        ensures Answers(Strip(FullFile(caps), cut), d, kind, ns, name, k) <==> Answers(FullFile(caps), d, kind, ns, name, k)
      {
        RepresentedAnswers(caps, cut, keep, d, kind, ns, name, k);
      }
    }
    if AnswersAlike(FullFile(caps), Strip(FullFile(caps), cut), d, kind) {
      forall i, j | IsPodRow(caps, i, j) && !keep(i, j)
        ensures RowRepresented(caps, keep, d, kind, i, j)
      {
        AnswersRepresent(caps, cut, keep, d, kind, i, j);
      }
    }
  }

  lemma RepresentedAnswers(caps: seq<Capture>, cut: set<ShrinkTarget>, keep: Rule, d: Decoder, kind: Kind, ns: string, name: string, k: ResKey)
    requires GoodRun(caps) && RowsHaveContent(caps) && CutsBy(caps, cut, keep) && Represented(caps, keep, d, kind)
    requires k in FullFile(caps).resources && k.kind == PODS && InScope(kind, ns, k.ns)
    ensures Answers(Strip(FullFile(caps), cut), d, kind, ns, name, k) <==> Answers(FullFile(caps), d, kind, ns, name, k)
  {
    var i, j := StoredAreRows(caps, k);
    assert IsPodRow(caps, i, j) && k == KeyAtRow(caps, i, j);
    RowAnswers(caps, cut, keep, d, kind, ns, name, i, j);
  }

  lemma RowAnswers(caps: seq<Capture>, cut: set<ShrinkTarget>, keep: Rule, d: Decoder, kind: Kind, ns: string, name: string, i: int, j: int)
    requires GoodRun(caps) && RowsHaveContent(caps) && CutsBy(caps, cut, keep) && Represented(caps, keep, d, kind)
    requires IsPodRow(caps, i, j) && InScope(kind, ns, caps[i].rows[j].ns)
    ensures Answers(Strip(FullFile(caps), cut), d, kind, ns, name, KeyAtRow(caps, i, j)) <==>
            Answers(FullFile(caps), d, kind, ns, name, KeyAtRow(caps, i, j))
  {
    FullAnswer(caps, d, kind, ns, name, i, j);
    if keep(i, j) {
      KeptAnswer(caps, cut, d, kind, ns, name, i, j);
    } else {
      StrippedAnswer(caps, cut, keep, d, kind, ns, name, i, j);
      assert RowRepresented(caps, keep, d, kind, i, j);
    }
  }

  lemma AnswersRepresent(caps: seq<Capture>, cut: set<ShrinkTarget>, keep: Rule, d: Decoder, kind: Kind, i: int, j: int)
    requires GoodRun(caps) && RowsHaveContent(caps) && CutsBy(caps, cut, keep) && IsPodRow(caps, i, j) && !keep(i, j)
    requires AnswersAlike(FullFile(caps), Strip(FullFile(caps), cut), d, kind)
    ensures RowRepresented(caps, keep, d, kind, i, j)
  {
    RowsAreStored(caps, i, j);
    forall ns, name | InScope(kind, ns, caps[i].rows[j].ns)
      ensures RowBelongs(caps, d, kind, ns, name, i, caps[i].rows[j].raw) <==> StandInBelongs(caps, keep, d, kind, ns, name, i, j)
    {
      FullAnswer(caps, d, kind, ns, name, i, j);
      StrippedAnswer(caps, cut, keep, d, kind, ns, name, i, j);
    }
  }

  // ---- Nodes and owners ----

  /** Each stripped row has a stand-in that names the same node. */
  ghost predicate NodesRepresented(caps: seq<Capture>, keep: Rule, d: Decoder) {
    forall i, j :: IsPodRow(caps, i, j) && !keep(i, j) ==>
      exists x, y :: StandsIn(caps, keep, x, y, PodAt(caps, i, j)) && d.nodeName(caps[x].rows[y].raw) == d.nodeName(caps[i].rows[j].raw)
  }

  lemma NodeRepresented(caps: seq<Capture>, keep: Rule, d: Decoder, i: int, j: int)
    requires OneRowPerPod(caps) && IsPodRow(caps, i, j)
    ensures RowRepresented(caps, keep, d, NODES, i, j) <==>
            exists x, y :: StandsIn(caps, keep, x, y, PodAt(caps, i, j)) && d.nodeName(caps[x].rows[y].raw) == d.nodeName(caps[i].rows[j].raw)
  {
    var node := d.nodeName(caps[i].rows[j].raw);
    if RowRepresented(caps, keep, d, NODES, i, j) {
      assert InScope(NODES, "", caps[i].rows[j].ns);
      assert RowBelongs(caps, d, NODES, "", node, i, caps[i].rows[j].raw);
      assert StandInBelongs(caps, keep, d, NODES, "", node, i, j);
    }
    if x, y :| StandsIn(caps, keep, x, y, PodAt(caps, i, j)) && d.nodeName(caps[x].rows[y].raw) == node {
      forall ns, name
        ensures RowBelongs(caps, d, NODES, ns, name, i, caps[i].rows[j].raw) <==> StandInBelongs(caps, keep, d, NODES, ns, name, i, j)
      {
        StandInBelongsMeans(caps, keep, d, NODES, ns, name, i, j, x, y);
      }
    }
  }

  lemma RepresentedNodes(caps: seq<Capture>, keep: Rule, d: Decoder)
    requires OneRowPerPod(caps)
    ensures Represented(caps, keep, d, NODES) <==> NodesRepresented(caps, keep, d)
  {
    forall i, j | IsPodRow(caps, i, j) && !keep(i, j)
      ensures RowRepresented(caps, keep, d, NODES, i, j) <==>
              exists x, y :: StandsIn(caps, keep, x, y, PodAt(caps, i, j)) && d.nodeName(caps[x].rows[y].raw) == d.nodeName(caps[i].rows[j].raw)
    {
      NodeRepresented(caps, keep, d, i, j);
    }
  }

  /** The kinds whose pods name them as owner, with the word they use. */
  predicate OwnsPods(kind: Kind, owner: string) {
    || (kind == STATEFUL_SETS && owner == "StatefulSet") || (kind == DAEMON_SETS && owner == "DaemonSet")
    || (kind == REPLICA_SETS && owner == "ReplicaSet") || (kind == JOBS && owner == "Job")
  }

  /** Some stand-in of the row names the owner. */
  ghost predicate StandInOwned(caps: seq<Capture>, keep: Rule, d: Decoder, owner: string, name: string, i: int, j: int)
    requires IsPodRow(caps, i, j)
  {
    exists x, y :: StandsIn(caps, keep, x, y, PodAt(caps, i, j)) && IsOwnedBy(d, caps[x].rows[y].raw, owner, name)
  }

  /** Each stripped row names the owners that its stand-in names. */
  ghost predicate OwnersRepresented(caps: seq<Capture>, keep: Rule, d: Decoder, owner: string) {
    forall i, j, name :: IsPodRow(caps, i, j) && !keep(i, j) ==>
      (IsOwnedBy(d, caps[i].rows[j].raw, owner, name) <==> StandInOwned(caps, keep, d, owner, name, i, j))
  }

  lemma RepresentedOwners(caps: seq<Capture>, keep: Rule, d: Decoder, kind: Kind, owner: string)
    requires OwnsPods(kind, owner)
    ensures Represented(caps, keep, d, kind) <==> OwnersRepresented(caps, keep, d, owner)
  {
    forall i, j | IsPodRow(caps, i, j)
      ensures RowRepresented(caps, keep, d, kind, i, j) <==>
              forall name :: IsOwnedBy(d, caps[i].rows[j].raw, owner, name) <==> StandInOwned(caps, keep, d, owner, name, i, j)
    {
      OwnerRepresented(caps, keep, d, kind, owner, i, j);
    }
  }

  lemma OwnerRepresented(caps: seq<Capture>, keep: Rule, d: Decoder, kind: Kind, owner: string, i: int, j: int)
    requires OwnsPods(kind, owner) && IsPodRow(caps, i, j)
    ensures RowRepresented(caps, keep, d, kind, i, j) <==>
            forall name :: IsOwnedBy(d, caps[i].rows[j].raw, owner, name) <==> StandInOwned(caps, keep, d, owner, name, i, j)
  {
    forall ns, name
      ensures RowBelongs(caps, d, kind, ns, name, i, caps[i].rows[j].raw) <==> IsOwnedBy(d, caps[i].rows[j].raw, owner, name)
      ensures StandInBelongs(caps, keep, d, kind, ns, name, i, j) <==> StandInOwned(caps, keep, d, owner, name, i, j)
    {
      SameStandIn(caps, keep, d, kind, ns, owner, name, i, j);
    }
    if RowRepresented(caps, keep, d, kind, i, j) {
      forall name
        ensures IsOwnedBy(d, caps[i].rows[j].raw, owner, name) <==> StandInOwned(caps, keep, d, owner, name, i, j)
      {
        assert InScope(kind, "", caps[i].rows[j].ns);
        assert RowBelongs(caps, d, kind, "", name, i, caps[i].rows[j].raw) <==> StandInBelongs(caps, keep, d, kind, "", name, i, j);
      }
    }
  }

  lemma SameStandIn(caps: seq<Capture>, keep: Rule, d: Decoder, kind: Kind, ns: string, owner: string, name: string, i: int, j: int)
    requires OwnsPods(kind, owner) && IsPodRow(caps, i, j)
    ensures RowBelongs(caps, d, kind, ns, name, i, caps[i].rows[j].raw) <==> IsOwnedBy(d, caps[i].rows[j].raw, owner, name)
    ensures StandInBelongs(caps, keep, d, kind, ns, name, i, j) <==> StandInOwned(caps, keep, d, owner, name, i, j)
  {
    forall x, y | StandsIn(caps, keep, x, y, PodAt(caps, i, j))
      ensures RowBelongs(caps, d, kind, ns, name, i, caps[x].rows[y].raw) <==> IsOwnedBy(d, caps[x].rows[y].raw, owner, name)
    {
    }
  }

  // ---- In every mode ----

  /** For any decoder and parent kind: the drills survive shrinking, recording incidents-only, or both,
      exactly when each stripped row is represented by the first row that is kept. */
  lemma DrillsByMode(caps: seq<Capture>, d: Decoder, kind: Kind)
    requires GoodRun(caps) && RowsHaveContent(caps)
    ensures KeepsDrillsFrom(FullFile(caps), Shrunk(FullFile(caps), RunIds(caps)), d, kind) <==> Represented(caps, ByShrinker(caps), d, kind)
    ensures KeepsDrillsFrom(FullFile(caps), IncidentsOnlyFile(caps), d, kind) <==> Represented(caps, ByRecorder(caps), d, kind)
    ensures KeepsDrillsFrom(FullFile(caps), Shrunk(IncidentsOnlyFile(caps), RunIds(caps)), d, kind) <==>
            Represented(caps, ByBoth(caps), d, kind)
  {
    var on, off := Online(caps), Offline(caps);
    ModesListed(caps);
    RulesCut(caps);
    StripBoth(FullFile(caps), on, off);
    DrillsNeedStandIns(caps, off, ByShrinker(caps), d, kind);
    DrillsNeedStandIns(caps, on, ByRecorder(caps), d, kind);
    DrillsNeedStandIns(caps, on + off, ByBoth(caps), d, kind);
  }

  /** Node drills: exactly when the first kept row of its name is on the node of each stripped row. */
  lemma NodeDrillsByMode(caps: seq<Capture>, d: Decoder)
    requires GoodRun(caps) && RowsHaveContent(caps)
    ensures KeepsDrillsFrom(FullFile(caps), Shrunk(FullFile(caps), RunIds(caps)), d, NODES) <==> NodesRepresented(caps, ByShrinker(caps), d)
    ensures KeepsDrillsFrom(FullFile(caps), IncidentsOnlyFile(caps), d, NODES) <==> NodesRepresented(caps, ByRecorder(caps), d)
    ensures KeepsDrillsFrom(FullFile(caps), Shrunk(IncidentsOnlyFile(caps), RunIds(caps)), d, NODES) <==>
            NodesRepresented(caps, ByBoth(caps), d)
  {
    DrillsByMode(caps, d, NODES);
    GoodRunsHaveOneRowPerPod(caps);
    RepresentedNodes(caps, ByShrinker(caps), d);
    RepresentedNodes(caps, ByRecorder(caps), d);
    RepresentedNodes(caps, ByBoth(caps), d);
  }

  /** Drills from an owner: exactly when the first kept row names the owners that each stripped row names. */
  lemma OwnerDrillsByMode(caps: seq<Capture>, d: Decoder, kind: Kind, owner: string)
    requires GoodRun(caps) && RowsHaveContent(caps) && OwnsPods(kind, owner)
    ensures KeepsDrillsFrom(FullFile(caps), Shrunk(FullFile(caps), RunIds(caps)), d, kind) <==>
            OwnersRepresented(caps, ByShrinker(caps), d, owner)
    ensures KeepsDrillsFrom(FullFile(caps), IncidentsOnlyFile(caps), d, kind) <==> OwnersRepresented(caps, ByRecorder(caps), d, owner)
    ensures KeepsDrillsFrom(FullFile(caps), Shrunk(IncidentsOnlyFile(caps), RunIds(caps)), d, kind) <==>
            OwnersRepresented(caps, ByBoth(caps), d, owner)
  {
    DrillsByMode(caps, d, kind);
    RepresentedOwners(caps, ByShrinker(caps), d, kind, owner);
    RepresentedOwners(caps, ByRecorder(caps), d, kind, owner);
    RepresentedOwners(caps, ByBoth(caps), d, kind, owner);
  }

  /** Where all copies agree, any copy will do: the stable drills are a special case. */
  lemma StableAreRepresented(caps: seq<Capture>, cut: set<ShrinkTarget>, keep: Rule, d: Decoder, kind: Kind)
    requires GoodRun(caps) && CutsBy(caps, cut, keep) && StableFor(FullFile(caps), d, kind) && RowsHaveContent(caps)
    requires LeavesCopies(FullFile(caps), cut)
    ensures Represented(caps, keep, d, kind)
  {
    FullFileIsPlain(caps);
    forall snap, ns, name
      ensures PodFilter(Strip(FullFile(caps), cut), d, snap, kind, ns, name) == PodFilter(FullFile(caps), d, snap, kind, ns, name)
    {
      DrillSurvivesStripping(FullFile(caps), d, cut, snap, kind, ns, name);
    }
    DrillsNeedStandIns(caps, cut, keep, d, kind);
  }

  // ---- Two pods under the wrong node ----

  ghost predicate ShownOnNode(f: File, d: Decoder, snap: nat, p: History.Pod, node: string) {
    JoinKey(p.ns, p.name) in PodFilter(f, d, snap, NODES, "", node)
  }

  lemma NodeShownInFull(caps: seq<Capture>, d: Decoder, i: int, j: int, node: string)
    requires GoodRun(caps) && RowsHaveContent(caps) && IsPodRow(caps, i, j)
    ensures ShownOnNode(FullFile(caps), d, i + 1, PodAt(caps, i, j), node) <==> d.nodeName(caps[i].rows[j].raw) == node
  {
    FullFileIsPlain(caps);
    RowsAreStored(caps, i, j);
    ShownIffAnswers(FullFile(caps), d, NODES, "", node, KeyAtRow(caps, i, j));
    FullAnswer(caps, d, NODES, "", node, i, j);
  }

  /** On the shrunk file a stripped pod is shown under the node of its stand-in. */
  lemma NodeShownAfterShrinking(caps: seq<Capture>, d: Decoder, i: int, j: int, x: int, y: int, node: string)
    requires GoodRun(caps) && RowsHaveContent(caps) && IsPodRow(caps, i, j) && !ByShrinker(caps)(i, j)
    requires StandsIn(caps, ByShrinker(caps), x, y, PodAt(caps, i, j))
    ensures ShownOnNode(Shrunk(FullFile(caps), RunIds(caps)), d, i + 1, PodAt(caps, i, j), node) <==>
            d.nodeName(caps[x].rows[y].raw) == node
  {
    FullFileIsPlain(caps);
    RulesCut(caps);
    GoodRunsHaveOneRowPerPod(caps);
    StrippedRowIsMarked(caps, Offline(caps), i, j);
    ShownIffAnswers(Shrunk(FullFile(caps), RunIds(caps)), d, NODES, "", node, KeyAtRow(caps, i, j));
    StrippedAnswer(caps, Offline(caps), ByShrinker(caps), d, NODES, "", node, i, j);
    StandInBelongsMeans(caps, ByShrinker(caps), d, NODES, "", node, i, j, x, y);
  }

  /** The case of the very first row standing in. */
  lemma FirstStandsIn(caps: seq<Capture>, d: Decoder, i: int, j: int, y: int, p: History.Pod, node: string)
    requires GoodRun(caps) && RowsHaveContent(caps)
    requires Shows(caps, i, j, p) && !KeptOffline(caps, i, p) && Shows(caps, 0, y, p) && KeptOffline(caps, 0, p)
    ensures ShownOnNode(FullFile(caps), d, i + 1, p, node) <==> d.nodeName(caps[i].rows[j].raw) == node
    ensures ShownOnNode(Shrunk(FullFile(caps), RunIds(caps)), d, i + 1, p, node) <==> d.nodeName(caps[0].rows[y].raw) == node
  {
    assert KeptRow(caps, ByShrinker(caps), 0, y, p);
    NodeShownInFull(caps, d, i, j, node);
    NodeShownAfterShrinking(caps, d, i, j, 0, y, node);
  }

  function PodSaying(ts: int, uid: string, ready: nat, status: string, raw: Bytes): Capture {
    var c := OnePod(ts, uid, ready, status);
    c.(rows := [c.rows[0].(raw := raw)])
  }

  /** The content 1 names node n1, the content 2 node n2, and no other content names one. */
  function NodeByContent(): Decoder {
    Decoder(_ => [], raw => if raw == [1] then "n1" else if raw == [2] then "n2" else "")
  }

  lemma NodesNamed(d: Decoder, none: Bytes, one: Bytes, two: Bytes)
    requires d == NodeByContent() && none == [0] && one == [1] && two == [2]
    ensures d.nodeName(none) == "" && d.nodeName(one) == "n1" && d.nodeName(two) == "n2"
    ensures "" != "n1" && "n1" != "n2"
  {
    assert none[0] == 0 && one[0] == 1 && two[0] == 2;
    assert "n1"[1] != "n2"[1];
  }

  /** A pod waits to be scheduled and then runs on n1. */
  function WaitingPod(): seq<Capture> {
    [PodSaying(0, "a", 0, "Pending", [0]), PodSaying(1, "a", 1, "Running", [1]), PodSaying(2, "a", 1, "Running", [1])]
  }

  /** A pod on n1 is replaced by one of the same name on n2; both are healthy throughout. */
  function MovedPod(): seq<Capture> {
    [PodSaying(0, "a", 1, "Running", [1]), PodSaying(1, "b", 1, "Running", [2])]
  }

  lemma PodSayingIsGood(ts: int, uid: string, ready: nat, status: string, raw: Bytes)
    requires raw != []
    ensures GoodCapture(PodSaying(ts, uid, ready, status, raw)) && RowsHaveContent([PodSaying(ts, uid, ready, status, raw)])
  {
    OnePodIsGood(ts, uid, ready, status);
  }

  lemma PendingIsUnhealthy()
    ensures ClassifyPodHealth("Pending", ReadyText(0, 1)) == SoftBad
  {
    TrimNothing("Pending");
    assert "Pending"[0] == 'P';
  }

  lemma WaitingPodIsGood(caps: seq<Capture>)
    requires caps == WaitingPod()
    ensures GoodRun(caps) && RowsHaveContent(caps) && KeysIdentify(caps) && NamesIdentify(caps)
  {
    PodSayingIsGood(0, "a", 0, "Pending", [0]);
    PodSayingIsGood(1, "a", 1, "Running", [1]);
    PodSayingIsGood(2, "a", 1, "Running", [1]);
    forall i, j | IsPodRow(caps, i, j)
      ensures PodAt(caps, i, j) == History.Pod("shop", "web-0") && KeyOfRow(caps, i, j) == "a" && |caps[i].rows[j].raw| > 0
    {
    }
  }

  lemma WaitingPodHealth(caps: seq<Capture>)
    requires caps == WaitingPod()
    ensures AllHealthyAt(caps, 1) && AllHealthyAt(caps, 2) && AllHealthyAt(caps, 3)
  {
    ReplacedPodHealth();
  }

  lemma WaitingPodWaits(caps: seq<Capture>, p: History.Pod)
    requires caps == WaitingPod() && p == History.Pod("shop", "web-0")
    ensures NameUnhealthyAt(caps, 0, p)
  {
    PendingIsUnhealthy();
    assert Shows(caps, 0, 0, p);
  }

  lemma WaitingPodStandIn(caps: seq<Capture>, p: History.Pod)
    requires caps == WaitingPod() && p == History.Pod("shop", "web-0")
    ensures Shows(caps, 2, 0, p) && !KeptOffline(caps, 2, p) && Shows(caps, 0, 0, p) && KeptOffline(caps, 0, p)
    ensures caps[2].rows[0].raw == [1] && caps[0].rows[0].raw == [0]
  {
    WaitingPodHealth(caps);
    WaitingPodWaits(caps, p);
    SeenAndHealthy(caps, 2, 0, 0, p);
  }

  /** Shrinking takes the running pod out of its node's drill: its stand-in is the row without a node. No
      name and no UID is reused. */
  lemma WaitingPodIsMissed(caps: seq<Capture>, d: Decoder, p: History.Pod)
    requires caps == WaitingPod() && d == NodeByContent() && p == History.Pod("shop", "web-0")
    ensures GoodRun(caps) && RowsHaveContent(caps) && KeysIdentify(caps) && NamesIdentify(caps)
    ensures ShownOnNode(FullFile(caps), d, 3, p, "n1") && !ShownOnNode(Shrunk(FullFile(caps), RunIds(caps)), d, 3, p, "n1")
  {
    WaitingPodIsGood(caps);
    WaitingPodStandIn(caps, p);
    NodesNamed(d, [0], [1], [2]);
    FirstStandsIn(caps, d, 2, 0, 0, p, "n1");
  }

  lemma MovedPodIsGood(caps: seq<Capture>)
    requires caps == MovedPod()
    ensures GoodRun(caps) && RowsHaveContent(caps) && KeysIdentify(caps)
  {
    PodSayingIsGood(0, "a", 1, "Running", [1]);
    PodSayingIsGood(1, "b", 1, "Running", [2]);
    forall i, j | IsPodRow(caps, i, j)
      ensures PodAt(caps, i, j) == History.Pod("shop", "web-0") && |caps[i].rows[j].raw| > 0
    {
    }
  }

  lemma MovedPodHealth(caps: seq<Capture>)
    requires caps == MovedPod()
    ensures AllHealthyAt(caps, 0) && AllHealthyAt(caps, 1) && AllHealthyAt(caps, 2)
  {
    ReplacedPodHealth();
  }

  lemma MovedPodStandIn(caps: seq<Capture>, p: History.Pod)
    requires caps == MovedPod() && p == History.Pod("shop", "web-0")
    ensures Shows(caps, 1, 0, p) && !KeptOffline(caps, 1, p) && Shows(caps, 0, 0, p) && KeptOffline(caps, 0, p)
    ensures caps[1].rows[0].raw == [2] && caps[0].rows[0].raw == [1]
  {
    MovedPodHealth(caps);
    FirstAndHealthy(caps, p);
    SeenAndHealthy(caps, 1, 0, 0, p);
  }

  /** Shrinking puts the pod back on the node of its predecessor. */
  lemma MovedPodIsMisplaced(caps: seq<Capture>, d: Decoder, p: History.Pod)
    requires caps == MovedPod() && d == NodeByContent() && p == History.Pod("shop", "web-0")
    ensures GoodRun(caps) && RowsHaveContent(caps) && KeysIdentify(caps)
    ensures ShownOnNode(FullFile(caps), d, 2, p, "n2") && !ShownOnNode(FullFile(caps), d, 2, p, "n1")
    ensures var g := Shrunk(FullFile(caps), RunIds(caps)); !ShownOnNode(g, d, 2, p, "n2") && ShownOnNode(g, d, 2, p, "n1")
  {
    MovedPodIsGood(caps);
    MovedPodStandIn(caps, p);
    NodesNamed(d, [0], [1], [2]);
    FirstStandsIn(caps, d, 1, 0, 0, p, "n1");
    FirstStandsIn(caps, d, 1, 0, 0, p, "n2");
  }
}
