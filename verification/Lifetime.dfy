/**
 The life of a file: it is recorded into, in full or incidents-only, shrunk, recorded into again, in any
 order. Each recording starts afresh: it remembers no pod of an earlier one, and its last capture was
 stripped with nothing to look forward to.
 */
module Lifetime {
  import opened Model
  import opened History
  import opened Pieces
  import opened FileView
  import opened Observations
  import opened Reader
  import opened Drilldown
  import opened Snapshotter
  import opened Runs
  import opened Retention
  import opened StandIns
  import opened Survival

  datatype Phase = Full(caps: seq<Capture>) | Incidents(caps: seq<Capture>) | Shrink

  function CapsOf(s: Phase): seq<Capture> {
    if s.Shrink? then [] else s.caps
  }

  /** Everything captured so far. */
  function Captured(life: seq<Phase>): seq<Capture> {
    if life == [] then [] else Captured(Front(life)) + CapsOf(Last(life))
  }

  ghost predicate GoodLife(life: seq<Phase>) {
    forall s :: s in life ==> GoodRun(CapsOf(s))
  }

  /** What a phase makes of file f, which was recorded from the captures `before`. */
  ghost function After(f: File, before: seq<Capture>, s: Phase): File {
    match s
    case Full(caps) => WrittenOnto(f, caps)
    case Incidents(caps) => WrittenOnto(f, RetainedUpto(caps, |caps|))
    case Shrink => Shrunk(f, RunIds(before))
  }

  ghost function Lived(life: seq<Phase>): File {
    if life == [] then EmptyFile() else After(Lived(Front(life)), Captured(Front(life)), Last(life))
  }

  // ---- A life only strips ----

  ghost function CutBy(before: seq<Capture>, s: Phase): set<ShrinkTarget> {
    match s
    case Full(_) => {}
    case Incidents(caps) => StrippedOnline(caps, |caps|, |before|)
    case Shrink => Offline(before)
  }

  ghost function Cut(life: seq<Phase>): set<ShrinkTarget> {
    if life == [] then {} else Cut(Front(life)) + CutBy(Captured(Front(life)), Last(life))
  }

  lemma {:induction false} WrittenOntoMore(f: File, a: seq<Capture>, b: seq<Capture>)
    ensures WrittenOnto(f, a + b) == WrittenOnto(WrittenOnto(f, a), b)
  {
    if b == [] {
      assert a + b == a;
    } else {
      WrittenOntoMore(f, a, Front(b));
      FrontLast(b);
      assert a + b == (a + Front(b)) + [Last(b)];
      WriteOneMore(f, a + Front(b), Last(b));
    }
  }

  lemma FullFileMore(before: seq<Capture>, caps: seq<Capture>)
    ensures FullFile(before + caps) == WrittenOnto(FullFile(before), caps)
  {
    WrittenOntoMore(EmptyFile(), before, caps);
  }

  lemma LifeParts(life: seq<Phase>)
    requires GoodLife(life) && life != []
    ensures GoodLife(Front(life)) && GoodRun(CapsOf(Last(life)))
  {
  }

  lemma GoodTogether(before: seq<Capture>, caps: seq<Capture>)
    requires GoodRun(before) && GoodRun(caps)
    ensures GoodRun(before + caps)
  {
  }

  lemma {:induction false} GoodCaptured(life: seq<Phase>)
    requires GoodLife(life)
    ensures GoodRun(Captured(life))
  {
    if life != [] {
      LifeParts(life);
      GoodCaptured(Front(life));
      GoodTogether(Captured(Front(life)), CapsOf(Last(life)));
    }
  }

  lemma NoMoreCaptures(before: seq<Capture>)
    ensures before + [] == before
  {
  }

  /** One phase on a stripped file leaves the longer full file, stripped. */
  lemma PhaseStrips(before: seq<Capture>, cut: set<ShrinkTarget>, s: Phase)
    requires GoodRun(before) && GoodRun(CapsOf(s)) && forall t :: t in cut ==> t.snap <= |before|
    ensures After(Strip(FullFile(before), cut), before, s) == Strip(FullFile(before + CapsOf(s)), cut + CutBy(before, s))
  {
    var f := FullFile(before);
    EmptyFileIsFresh();
    RunHolds(EmptyFile(), before, 0);
    match s
    case Full(caps) =>
      ResumedInFull(f, cut, caps, |before|);
      NothingMore(cut);
      FullFileMore(before, caps);
    case Incidents(caps) =>
      ResumedIsStripped(f, cut, caps, |before|);
      FullFileMore(before, caps);
    case Shrink =>
      StripKeepsTargets(f, cut, RunIds(before));
      StripBoth(f, cut, Offline(before));
      NoMoreCaptures(before);
  }

  // ---- Which rows a life drops ----

  /** Row (i, j) of everything captured once s is over is dropped by s. */
  ghost predicate DropsRow(before: seq<Capture>, s: Phase, i: int, j: int) {
    match s
    case Full(_) => false
    case Incidents(caps) => IsPodRow(caps, i - |before|, j) && !OwnReason(caps, i - |before|, j)
    case Shrink => IsPodRow(before, i, j) && !KeptOffline(before, i, PodAt(before, i, j))
  }

  /** Row (i, j) of everything captured is dropped by some phase. */
  ghost predicate Dropped(life: seq<Phase>, i: int, j: int) {
    life != [] &&
    ((i < |Captured(Front(life))| && Dropped(Front(life), i, j)) || DropsRow(Captured(Front(life)), Last(life), i, j))
  }

  lemma CutBySnaps(before: seq<Capture>, s: Phase)
    requires GoodRun(before)
    ensures forall t :: t in CutBy(before, s) ==> t.snap <= |before| + |CapsOf(s)|
    ensures s.Incidents? ==> forall t :: t in CutBy(before, s) ==> |before| < t.snap
  {
    match s
    case Full(_) =>
    case Incidents(caps) =>
      StrippedOnlineSnaps(caps, |caps|, |before|);
    case Shrink =>
      forall t | t in Offline(before)
        ensures t.snap <= |before|
      {
        var i, j := OfflineSource(before, t);
      }
  }

  lemma {:induction false} CutSnaps(life: seq<Phase>)
    requires GoodLife(life)
    ensures forall t :: t in Cut(life) ==> t.snap <= |Captured(life)|
  {
    if life != [] {
      LifeParts(life);
      CutSnaps(Front(life));
      GoodCaptured(Front(life));
      CutBySnaps(Captured(Front(life)), Last(life));
    }
  }

  /** Whatever happens to a file, it stays the never-stripped file with something stripped. */
  lemma {:induction false} LivedIsStripped(life: seq<Phase>)
    requires GoodLife(life)
    ensures Lived(life) == Strip(FullFile(Captured(life)), Cut(life))
  {
    if life == [] {
      EmptyFileIsFresh();
    } else {
      LifeParts(life);
      LivedIsStripped(Front(life));
      GoodCaptured(Front(life));
      CutSnaps(Front(life));
      PhaseStrips(Captured(Front(life)), Cut(Front(life)), Last(life));
    }
  }

  lemma NewRow(before: seq<Capture>, caps: seq<Capture>, i: int, j: int)
    requires |before| <= i && IsPodRow(before + caps, i, j)
    ensures IsPodRow(caps, i - |before|, j) && (before + caps)[i] == caps[i - |before|]
    ensures RowTarget(before + caps, i, j) == TargetAt(caps, i - |before|, j, |before|)
  {
  }

  lemma OldRow(before: seq<Capture>, caps: seq<Capture>, i: int, j: int)
    requires i < |before| && IsPodRow(before + caps, i, j)
    ensures IsPodRow(before, i, j) && (before + caps)[i] == before[i]
    ensures RowTarget(before + caps, i, j) == RowTarget(before, i, j)
  {
  }

  lemma PhaseVerdict(caps: seq<Capture>, i: int, j: int, before: nat)
    requires GoodRun(caps) && IsPodRow(caps, i, j)
    ensures TargetAt(caps, i, j, before) in StrippedOnline(caps, |caps|, before) <==> !OwnReason(caps, i, j)
  {
    RunVerdict(caps, i, j, before);
    KeptOnlineMeans(caps, i, j);
  }

  lemma CutByMeans(before: seq<Capture>, s: Phase, i: int, j: int)
    requires GoodRun(before) && GoodRun(CapsOf(s)) && IsPodRow(before + CapsOf(s), i, j)
    ensures RowTarget(before + CapsOf(s), i, j) in CutBy(before, s) <==> DropsRow(before, s, i, j)
  {
    match s
    case Full(_) =>
    case Incidents(caps) =>
      if i < |before| {
        CutBySnaps(before, s);
      } else {
        NewRow(before, caps, i, j);
        PhaseVerdict(caps, i - |before|, j, |before|);
      }
    case Shrink =>
      NoMoreCaptures(before);
      OfflineRule(before, i, j);
  }

  lemma {:induction false} CutMeans(life: seq<Phase>, i: int, j: int)
    requires GoodLife(life) && IsPodRow(Captured(life), i, j)
    ensures RowTarget(Captured(life), i, j) in Cut(life) <==> Dropped(life, i, j)
  {
    if life != [] {
      var before, s := Captured(Front(life)), Last(life);
      LifeParts(life);
      GoodCaptured(Front(life));
      CutByMeans(before, s, i, j);
      if i < |before| {
        OldRow(before, CapsOf(s), i, j);
        CutMeans(Front(life), i, j);
      } else {
        CutSnaps(Front(life));
      }
    }
  }

  lemma CutsRowsMore(before: seq<Capture>, caps: seq<Capture>, cut: set<ShrinkTarget>)
    requires CutsRows(before, cut)
    ensures CutsRows(before + caps, cut)
  {
    forall t | t in cut
      ensures exists i, j :: IsPodRow(before + caps, i, j) && RowTarget(before + caps, i, j) == t
    {
      var i, j :| IsPodRow(before, i, j) && RowTarget(before, i, j) == t;
      assert IsPodRow(before + caps, i, j);
    }
  }

  lemma PhaseSource(before: seq<Capture>, caps: seq<Capture>, t: ShrinkTarget) returns (i: int, j: int)
    requires t in StrippedOnline(caps, |caps|, |before|)
    ensures IsPodRow(before + caps, i, j) && RowTarget(before + caps, i, j) == t
  {
    assert IsCutOnline(caps, |caps|, |before|, t);
    i, j := RunSource(caps, |before|, t);
    i := |before| + i;
    NewRow(before, caps, i, j);
  }

  lemma CutByCutsRows(before: seq<Capture>, s: Phase)
    requires GoodRun(before)
    ensures CutsRows(before + CapsOf(s), CutBy(before, s))
  {
    match s
    case Full(_) =>
    case Incidents(caps) =>
      forall t | t in StrippedOnline(caps, |caps|, |before|)
        ensures exists i, j :: IsPodRow(before + caps, i, j) && RowTarget(before + caps, i, j) == t
      {
        var i, j := PhaseSource(before, caps, t);
      }
    case Shrink =>
      NoMoreCaptures(before);
      forall t | t in Offline(before)
        ensures exists i, j :: IsPodRow(before, i, j) && RowTarget(before, i, j) == t
      {
        var i, j := OfflineSource(before, t);
      }
  }

  lemma BothCutRows(caps: seq<Capture>, a: set<ShrinkTarget>, b: set<ShrinkTarget>)
    requires CutsRows(caps, a) && CutsRows(caps, b)
    ensures CutsRows(caps, a + b)
  {
  }

  lemma {:induction false} LifeCutsRows(life: seq<Phase>)
    requires GoodLife(life)
    ensures CutsRows(Captured(life), Cut(life))
  {
    if life != [] {
      var before, s := Captured(Front(life)), Last(life);
      LifeParts(life);
      GoodCaptured(Front(life));
      LifeCutsRows(Front(life));
      CutsRowsMore(before, CapsOf(s), Cut(Front(life)));
      CutByCutsRows(before, s);
      BothCutRows(before + CapsOf(s), Cut(Front(life)), CutBy(before, s));
    }
  }

  // ---- Stripping along the way and stripping at the end ----

  /** No phase dropped a row that shrinking the never-stripped file would keep. */
  ghost predicate DropsHarmless(life: seq<Phase>) {
    forall i, j :: IsPodRow(Captured(life), i, j) && Dropped(life, i, j) ==> !KeptOffline(Captured(life), i, PodAt(Captured(life), i, j))
  }

  lemma HarmlessCut(life: seq<Phase>, t: ShrinkTarget)
    requires GoodLife(life) && DropsHarmless(life) && t in Cut(life)
    ensures t in Offline(Captured(life))
  {
    GoodCaptured(life);
    LifeCutsRows(life);
    var i, j :| IsPodRow(Captured(life), i, j) && RowTarget(Captured(life), i, j) == t;
    CutMeans(life, i, j);
    OfflineRule(Captured(life), i, j);
  }

  lemma HarmfulCut(life: seq<Phase>) returns (i: int, j: int)
    requires GoodLife(life) && !DropsHarmless(life)
    ensures IsPodRow(Captured(life), i, j)
    ensures RowTarget(Captured(life), i, j) in Cut(life) && RowTarget(Captured(life), i, j) !in Offline(Captured(life))
  {
    i, j :| IsPodRow(Captured(life), i, j) && Dropped(life, i, j) && KeptOffline(Captured(life), i, PodAt(Captured(life), i, j));
    GoodCaptured(life);
    CutMeans(life, i, j);
    OfflineRule(Captured(life), i, j);
  }

  /** Shrinking the file in the end gives what shrinking the never-stripped file gives, exactly when no
      phase dropped a row that would then be missed. */
  lemma LifeAndShrinkingCommute(life: seq<Phase>)
    requires GoodLife(life)
    ensures var all := Captured(life);
            Shrunk(Lived(life), RunIds(all)) == Shrunk(FullFile(all), RunIds(all)) <==> DropsHarmless(life)
  {
    var all := Captured(life);
    GoodCaptured(life);
    LivedIsStripped(life);
    StripKeepsTargets(FullFile(all), Cut(life), RunIds(all));
    if DropsHarmless(life) {
      forall t | t in Cut(life)
        ensures t in Offline(all)
      {
        HarmlessCut(life, t);
      }
      StripTwice(FullFile(all), Cut(life), Offline(all));
    } else {
      var i, j := HarmfulCut(life);
      HarmedRow(all, Cut(life), i, j);
    }
  }

  /** Every history is that of the captures, so the markers are the same. */
  lemma LifeKeepsHistories(life: seq<Phase>)
    requires GoodLife(life)
    ensures FileHistories(Lived(life), RunIds(Captured(life))) == FileHistories(FullFile(Captured(life)), RunIds(Captured(life)))
  {
    LivedIsStripped(life);
    StripKeepsHistories(FullFile(Captured(life)), Cut(life), RunIds(Captured(life)));
  }

  /** No phase dropped a row at or beside the start of an incident. */
  ghost predicate DropsSpareStarts(life: seq<Phase>) {
    forall i, j, u :: BesideStart(Captured(life), i, j, u) ==> !Dropped(life, i, j)
  }

  /** Around every marker the file still shows what was captured, exactly when no phase dropped a row
      at or beside the start of an incident. */
  lemma LifeKeepsEvidence(life: seq<Phase>)
    requires GoodLife(life) && RowsHaveContent(Captured(life))
    ensures KeepsEvidence(Captured(life), Lived(life)) <==> DropsSpareStarts(life)
  {
    var all := Captured(life);
    GoodCaptured(life);
    LivedIsStripped(life);
    LifeCutsRows(life);
    EvidenceKept(all, Cut(life));
    forall i, j | IsPodRow(all, i, j)
      ensures RowTarget(all, i, j) in Cut(life) <==> Dropped(life, i, j)
    {
      CutMeans(life, i, j);
    }
    DropsAreCut(life);
  }

  lemma DropsAreCut(life: seq<Phase>)
    requires forall i, j :: IsPodRow(Captured(life), i, j) ==> (RowTarget(Captured(life), i, j) in Cut(life) <==> Dropped(life, i, j))
    ensures SparesEvidence(Captured(life), Cut(life)) <==> DropsSpareStarts(life)
  {
    if DropsSpareStarts(life) {
      forall i, j, u | BesideStart(Captured(life), i, j, u)
        ensures RowTarget(Captured(life), i, j) !in Cut(life)
      {
        assert !Dropped(life, i, j);
      }
    }
  }

  // ---- Drilling, all along ----

  /** Where the recording drops a row because it has seen the UID, the name was shown before as well, in
      this recording or an earlier one, or is unhealthy in some capture. */
  ghost predicate SparesNewcomers(before: seq<Capture>, s: Phase) {
    s.Incidents? ==>
      forall i, j :: IsPodRow(s.caps, i, j) && !OwnReason(s.caps, i, j) ==>
        NameShownEarlier(before + s.caps, |before| + i, PodAt(s.caps, i, j)) || NameUnhealthyOnce(before + s.caps, PodAt(s.caps, i, j))
  }

  ghost predicate SharersSpared(life: seq<Phase>) {
    life != [] ==> SharersSpared(Front(life)) && SparesNewcomers(Captured(Front(life)), Last(life))
  }

  /** After every phase each pod has a copy, even if the file is shrunk next. */
  ghost predicate CopiesStay(life: seq<Phase>) {
    life != [] ==> CopiesStay(Front(life)) && LeavesCopies(FullFile(Captured(life)), Cut(life) + Offline(Captured(life)))
  }

  /** A phase drops no unhealthy row. */
  lemma UnhealthyIsKept(before: seq<Capture>, s: Phase, i: int, j: int)
    requires IsPodRow(before + CapsOf(s), i, j) && RowUnhealthy((before + CapsOf(s))[i].rows[j])
    ensures !DropsRow(before, s, i, j)
  {
    if s.Incidents? && IsPodRow(s.caps, i - |before|, j) {
      assert (before + s.caps)[i] == s.caps[i - |before|];
      assert PodKey(s.caps[i - |before|].rows[j]) == KeyOfRow(s.caps, i - |before|, j);
    }
    if s.Shrink? && IsPodRow(before, i, j) {
      assert (before + CapsOf(s))[i] == before[i];
      assert Shows(before, i, j, PodAt(before, i, j));
    }
  }

  lemma {:induction false} LifeSparesUnhealthy(life: seq<Phase>, i: int, j: int)
    requires GoodLife(life) && IsPodRow(Captured(life), i, j) && RowUnhealthy(Captured(life)[i].rows[j])
    ensures !Dropped(life, i, j)
  {
    if life != [] {
      var before, s := Captured(Front(life)), Last(life);
      LifeParts(life);
      UnhealthyIsKept(before, s, i, j);
      if i < |before| {
        OldRow(before, CapsOf(s), i, j);
        LifeSparesUnhealthy(Front(life), i, j);
      }
    }
  }

  lemma CutSparesUnhealthy(life: seq<Phase>)
    requires GoodLife(life)
    ensures SparesUnhealthy(Captured(life), Cut(life))
  {
    forall i, j | IsPodRow(Captured(life), i, j) && RowUnhealthy(Captured(life)[i].rows[j])
      ensures RowTarget(Captured(life), i, j) !in Cut(life)
    {
      LifeSparesUnhealthy(life, i, j);
      CutMeans(life, i, j);
    }
  }

  ghost predicate FirstsKept(life: seq<Phase>) {
    forall i, j :: FirstOfHealthy(Captured(life), i, j) ==> !Dropped(life, i, j)
  }

  lemma FirstsKeptMeans(life: seq<Phase>)
    requires GoodLife(life)
    ensures FirstsKept(life) <==> SparesFirst(Captured(life), Cut(life))
  {
    forall i, j | IsPodRow(Captured(life), i, j)
      ensures RowTarget(Captured(life), i, j) in Cut(life) <==> Dropped(life, i, j)
    {
      CutMeans(life, i, j);
    }
    if SparesFirst(Captured(life), Cut(life)) {
      forall i, j | FirstOfHealthy(Captured(life), i, j)
        ensures !Dropped(life, i, j)
      {
        assert RowTarget(Captured(life), i, j) !in Cut(life);
      }
    }
  }

  lemma ShownBefore(before: seq<Capture>, caps: seq<Capture>, i: int, p: Pod)
    requires NameShownEarlier(before, i, p)
    ensures NameShownEarlier(before + caps, i, p)
  {
    var i', j' :| i' < i && Shows(before, i', j', p);
    assert Shows(before + caps, i', j', p);
  }

  lemma UnhealthyBefore(before: seq<Capture>, caps: seq<Capture>, p: Pod)
    requires NameUnhealthyOnce(before, p)
    ensures NameUnhealthyOnce(before + caps, p)
  {
    var i', j' :| Shows(before, i', j', p) && RowUnhealthy(before[i'].rows[j']);
    assert Shows(before + caps, i', j', p) && (before + caps)[i'] == before[i'];
  }

  lemma FirstBefore(before: seq<Capture>, caps: seq<Capture>, i: int, j: int)
    requires i < |before| && FirstOfHealthy(before + caps, i, j)
    ensures FirstOfHealthy(before, i, j)
  {
    OldRow(before, caps, i, j);
    var p := PodAt(before, i, j);
    if NameShownEarlier(before, i, p) {
      ShownBefore(before, caps, i, p);
    }
    if NameUnhealthyOnce(before, p) {
      UnhealthyBefore(before, caps, p);
    }
  }

  lemma FirstNotDropped(before: seq<Capture>, s: Phase, i: int, j: int)
    requires SparesNewcomers(before, s) && FirstOfHealthy(before + CapsOf(s), i, j)
    ensures !DropsRow(before, s, i, j)
  {
    if s.Incidents? && |before| <= i {
      NewRow(before, s.caps, i, j);
    }
    if s.Shrink? {
      NoMoreCaptures(before);
    }
  }

  lemma {:induction false} SparedFirstsKept(life: seq<Phase>)
    requires GoodLife(life) && SharersSpared(life)
    ensures FirstsKept(life)
  {
    if life != [] {
      var before, s := Captured(Front(life)), Last(life);
      LifeParts(life);
      SparedFirstsKept(Front(life));
      forall i, j | FirstOfHealthy(Captured(life), i, j)
        ensures !Dropped(life, i, j)
      {
        FirstNotDropped(before, s, i, j);
        if i < |before| {
          FirstBefore(before, CapsOf(s), i, j);
        }
      }
    }
  }

  lemma KeptNewcomers(life: seq<Phase>)
    requires GoodLife(life) && life != [] && FirstsKept(life)
    ensures SparesNewcomers(Captured(Front(life)), Last(life))
  {
    var before, s := Captured(Front(life)), Last(life);
    if s.Incidents? {
      forall i, j | IsPodRow(s.caps, i, j) && !OwnReason(s.caps, i, j)
        ensures NameShownEarlier(before + s.caps, |before| + i, PodAt(s.caps, i, j)) || NameUnhealthyOnce(before + s.caps, PodAt(s.caps, i, j))
      {
        assert (before + s.caps)[|before| + i] == s.caps[i];
        assert DropsRow(before, s, |before| + i, j);
        assert !FirstOfHealthy(Captured(life), |before| + i, j);
      }
    }
  }

  /** After every phase each pod keeps a copy, exactly when no recording drops the first sighting of a
      healthy name. */
  lemma {:induction false} CopiesAlwaysStay(life: seq<Phase>)
    requires GoodLife(life)
    ensures CopiesStay(life) <==> SharersSpared(life)
  {
    if life != [] {
      LifeParts(life);
      CopiesAlwaysStay(Front(life));
      GoodCaptured(life);
      CutSparesUnhealthy(life);
      CopiesLeft(Captured(life), Cut(life));
      FirstsKeptMeans(life);
      if SharersSpared(life) {
        SparedFirstsKept(life);
      }
      if FirstsKept(life) {
        KeptNewcomers(life);
      }
    }
  }

  lemma CopiesLeftByLife(life: seq<Phase>)
    requires GoodLife(life) && SharersSpared(life)
    ensures LeavesCopies(FullFile(Captured(life)), Cut(life) + Offline(Captured(life)))
  {
    GoodCaptured(life);
    CutSparesUnhealthy(life);
    CopiesLeft(Captured(life), Cut(life));
    FirstsKeptMeans(life);
    SparedFirstsKept(life);
  }

  /** Whatever was recorded and however often it was shrunk, a stable drill shows the same pods as in the
      never-stripped file, and shrinking once more does not change that. */
  lemma DrillsOutlivePhases(life: seq<Phase>, d: Decoder, snap: nat, kind: Kind, ns: string, name: string)
    requires GoodLife(life) && SharersSpared(life) && StableFor(FullFile(Captured(life)), d, kind)
    ensures var all := Captured(life);
            var pods := PodFilter(FullFile(all), d, snap, kind, ns, name);
            && PodFilter(Lived(life), d, snap, kind, ns, name) == pods
            && PodFilter(Shrunk(Lived(life), RunIds(all)), d, snap, kind, ns, name) == pods
  {
    var all := Captured(life);
    var f, cut, off := FullFile(all), Cut(life), Offline(all);
    GoodCaptured(life);
    LivedIsStripped(life);
    FullFileIsUnstripped(all);
    CopiesLeftByLife(life);
    FewerTargetsLeaveCopies(f, cut, cut + off);
    DrillSurvivesStripping(f, d, cut, snap, kind, ns, name);
    DrillSurvivesStripping(f, d, cut + off, snap, kind, ns, name);
    StripKeepsTargets(f, cut, RunIds(all));
    StripBoth(f, cut, off);
  }

  /** The rows that no phase dropped. */
  ghost function Undropped(life: seq<Phase>): Rule {
    (i: int, j: int) => !Dropped(life, i, j)
  }

  lemma LifeCutsBy(life: seq<Phase>)
    requires GoodLife(life)
    ensures CutsBy(Captured(life), Cut(life), Undropped(life))
  {
    forall i, j | IsPodRow(Captured(life), i, j)
      ensures RowTarget(Captured(life), i, j) in Cut(life) <==> !Undropped(life)(i, j)
    {
      CutMeans(life, i, j);
    }
  }

  /** For any decoder and parent kind: the file keeps the drills of the never-stripped one exactly when each
      dropped row is represented by the first row of its name that no phase dropped. */
  lemma LifeKeepsDrillsFrom(life: seq<Phase>, d: Decoder, kind: Kind)
    requires GoodLife(life) && RowsHaveContent(Captured(life))
    ensures KeepsDrillsFrom(FullFile(Captured(life)), Lived(life), d, kind) <==> Represented(Captured(life), Undropped(life), d, kind)
  {
    GoodCaptured(life);
    LivedIsStripped(life);
    LifeCutsBy(life);
    DrillsNeedStandIns(Captured(life), Cut(life), Undropped(life), d, kind);
  }

  /** For nodes: exactly when that row is on the node of the dropped one. */
  lemma LifeKeepsNodeDrills(life: seq<Phase>, d: Decoder)
    requires GoodLife(life) && RowsHaveContent(Captured(life))
    ensures KeepsDrillsFrom(FullFile(Captured(life)), Lived(life), d, NODES) <==> NodesRepresented(Captured(life), Undropped(life), d)
  {
    LifeKeepsDrillsFrom(life, d, NODES);
    GoodCaptured(life);
    GoodRunsHaveOneRowPerPod(Captured(life));
    RepresentedNodes(Captured(life), Undropped(life), d);
  }

  /** For owners: exactly when it names the same owners. */
  lemma LifeKeepsOwnerDrills(life: seq<Phase>, d: Decoder, kind: Kind, owner: string)
    requires GoodLife(life) && RowsHaveContent(Captured(life)) && OwnsPods(kind, owner)
    ensures KeepsDrillsFrom(FullFile(Captured(life)), Lived(life), d, kind) <==> OwnersRepresented(Captured(life), Undropped(life), d, owner)
  {
    LifeKeepsDrillsFrom(life, d, kind);
    RepresentedOwners(Captured(life), Undropped(life), d, kind, owner);
  }

  /** After every phase the file, shrunk once more, keeps every stable drill of the never-stripped one. */
  ghost predicate DrillsStay(life: seq<Phase>) {
    life != [] ==>
      DrillsStay(Front(life)) && KeepsDrills(FullFile(Captured(life)), Shrunk(Lived(life), RunIds(Captured(life))))
  }

  lemma LivedThenShrunk(life: seq<Phase>)
    requires GoodLife(life)
    ensures Shrunk(Lived(life), RunIds(Captured(life))) == Strip(FullFile(Captured(life)), Cut(life) + Offline(Captured(life)))
  {
    LivedIsStripped(life);
    StripKeepsTargets(FullFile(Captured(life)), Cut(life), RunIds(Captured(life)));
    StripBoth(FullFile(Captured(life)), Cut(life), Offline(Captured(life)));
  }

  lemma ContentBefore(before: seq<Capture>, caps: seq<Capture>)
    requires RowsHaveContent(before + caps)
    ensures RowsHaveContent(before)
  {
    forall i, j | IsPodRow(before, i, j)
      ensures |before[i].rows[j].raw| > 0
    {
      assert IsPodRow(before + caps, i, j);
    }
  }

  /** They do exactly when no recording drops the first sighting of a healthy name. */
  lemma {:induction false} DrillsAlwaysStay(life: seq<Phase>)
    requires GoodLife(life) && RowsHaveContent(Captured(life))
    ensures DrillsStay(life) <==> SharersSpared(life)
  {
    CopiesAlwaysStay(life);
    if life != [] {
      var all := Captured(life);
      LifeParts(life);
      ContentBefore(Captured(Front(life)), CapsOf(Last(life)));
      DrillsAlwaysStay(Front(life));
      CopiesAlwaysStay(Front(life));
      GoodCaptured(life);
      FullFileIsPlain(all);
      ShrinkingLeavesCopies(all);
      DrillsNeedCopies(FullFile(all), Cut(life) + Offline(all));
      LivedThenShrunk(life);
    }
  }

  lemma EssentialNotDropped(life: seq<Phase>, i: int, j: int)
    requires GoodLife(life) && SharersSpared(life) && IsPodRow(Captured(life), i, j)
    requires Essential(RunHistory(Captured(life), PodAt(Captured(life), i, j)), i)
    ensures !Dropped(life, i, j)
  {
    var all, p := Captured(life), PodAt(Captured(life), i, j);
    var h := RunHistory(all, p);
    GoodCaptured(life);
    RunHistoryTells(all, p);
    if Unhealthy(h, i) {
      UnhealthyRow(all, p, h, i, j);
      LifeSparesUnhealthy(life, i, j);
    } else {
      NamesInHistory(all, i, h, p);
      SparedFirstsKept(life);
      assert FirstOfHealthy(all, i, j);
    }
  }

  lemma UnhealthyRow(caps: seq<Capture>, p: Pod, h: History, i: int, j: int)
    requires GoodRun(caps) && Tells(h, caps, p) && Shows(caps, i, j, p) && Unhealthy(h, i)
    ensures RowUnhealthy(caps[i].rows[j])
  {
    var m := UnhealthySource(caps, p, h, i);
    GoodRunsHaveOneRowPerPod(caps);
  }

  lemma EssentialRowLeft(life: seq<Phase>, i: nat, j: nat, k: ResKey)
    requires GoodLife(life) && SharersSpared(life) && IsRow(Captured(life), i, j, k) && k.kind == PODS
    ensures Essential(RunHistory(Captured(life), PodOf(k)), k.snap - 1) ==> TargetKey(k) !in Cut(life)
  {
    if Essential(RunHistory(Captured(life), PodOf(k)), i) {
      EssentialNotDropped(life, i, j);
      CutMeans(life, i, j);
    }
  }

  lemma EssentialInRun(caps: seq<Capture>, k: ResKey)
    requires IsEssential(FullFile(caps), RunIds(caps), k)
    ensures k in FullFile(caps).resources && k.kind == PODS && k.snap > 0 && Essential(RunHistory(caps, PodOf(k)), k.snap - 1)
  {
    var i := Position(RunIds(caps), k.snap);
    assert RunIds(caps)[i] == i + 1;
  }

  lemma EssentialKeyLeft(life: seq<Phase>, k: ResKey)
    requires GoodLife(life) && SharersSpared(life) && IsEssential(FullFile(Captured(life)), RunIds(Captured(life)), k)
    ensures TargetKey(k) !in Cut(life)
  {
    GoodCaptured(life);
    EssentialInRun(Captured(life), k);
    var i, j := StoredAreRows(Captured(life), k);
    EssentialRowLeft(life, i, j, k);
  }

  /** Every file with such a life meets what a further shrink asks of it. */
  lemma LivesKeepEssential(life: seq<Phase>)
    requires GoodLife(life) && SharersSpared(life)
    ensures Lists(RunIds(Captured(life)), Lived(life)) && EssentialKept(Lived(life), RunIds(Captured(life)))
  {
    GoodCaptured(life);
    RunIsListed(Captured(life));
    LivedIsStripped(life);
    FullFileIsUnstripped(Captured(life));
    forall k | IsEssential(FullFile(Captured(life)), RunIds(Captured(life)), k)
      ensures TargetKey(k) !in Cut(life)
    {
      EssentialKeyLeft(life, k);
    }
    SparedStayReal(FullFile(Captured(life)), Cut(life), RunIds(Captured(life)));
  }

  lemma SparedStayReal(f: File, cut: set<ShrinkTarget>, ids: seq<nat>)
    requires Lists(ids, f) && forall k :: k in f.resources ==> !f.resources[k].shrunk
    requires forall k :: IsEssential(f, ids, k) ==> TargetKey(k) !in cut
    ensures Lists(ids, Strip(f, cut)) && EssentialKept(Strip(f, cut), ids)
  {
    StripKeepsHistories(f, cut, ids);
    forall k | IsEssential(Strip(f, cut), ids, k)
      ensures !Strip(f, cut).resources[k].shrunk
    {
      assert IsEssential(f, ids, k);
    }
  }

  /** Recordings whose shared UIDs do no harm spare what matters to the whole life; full recordings and
      shrinking always do. */
  lemma {:induction false} HarmlessPhases(life: seq<Phase>)
    requires forall s :: s in life && s.Incidents? ==> SharersHarmless(s.caps)
    ensures SharersSpared(life)
  {
    if life != [] {
      HarmlessPhases(Front(life));
      assert Last(life) in life;
      if Last(life).Incidents? {
        HarmlessNewcomers(Captured(Front(life)), Last(life).caps);
      }
    }
  }

  lemma NewerFacts(before: seq<Capture>, caps: seq<Capture>, i: int, p: Pod)
    ensures NameShownEarlier(caps, i, p) ==> NameShownEarlier(before + caps, |before| + i, p)
    ensures NameUnhealthyOnce(caps, p) ==> NameUnhealthyOnce(before + caps, p)
  {
    if i', j' :| i' < i && Shows(caps, i', j', p) {
      assert (before + caps)[|before| + i'] == caps[i'];
      assert Shows(before + caps, |before| + i', j', p);
    }
    if i', j' :| Shows(caps, i', j', p) && RowUnhealthy(caps[i'].rows[j']) {
      assert (before + caps)[|before| + i'] == caps[i'];
      assert Shows(before + caps, |before| + i', j', p);
    }
  }

  lemma HarmlessNewcomers(before: seq<Capture>, caps: seq<Capture>)
    requires SharersHarmless(caps)
    ensures SparesNewcomers(before, Incidents(caps))
  {
    forall i, j | IsPodRow(caps, i, j) && !OwnReason(caps, i, j)
      ensures NameShownEarlier(before + caps, |before| + i, PodAt(caps, i, j)) || NameUnhealthyOnce(before + caps, PodAt(caps, i, j))
    {
      NewerFacts(before, caps, i, PodAt(caps, i, j));
    }
  }

  // ---- Where phases meet ----

  /** A phase ends with b captures taken. */
  ghost predicate IsSeam(life: seq<Phase>, b: int) {
    b == |Captured(life)| || (life != [] && IsSeam(Front(life), b))
  }

  /** No pod whose row was dropped just before a seam is unhealthy just after it. */
  ghost predicate CalmSeams(life: seq<Phase>) {
    forall i, j :: IsPodRow(Captured(life), i, j) && Dropped(life, i, j) && IsSeam(life, i + 1) ==>
      !NameUnhealthyAt(Captured(life), i + 1, PodAt(Captured(life), i, j))
  }

  lemma UnhealthyInPart(before: seq<Capture>, caps: seq<Capture>, u: int, p: Pod)
    requires u < |before|
    ensures NameUnhealthyAt(before + caps, u, p) <==> NameUnhealthyAt(before, u, p)
  {
    if j :| Shows(before + caps, u, j, p) && RowUnhealthy((before + caps)[u].rows[j]) {
      assert Shows(before, u, j, p);
    }
    if j :| Shows(before, u, j, p) && RowUnhealthy(before[u].rows[j]) {
      assert Shows(before + caps, u, j, p);
    }
  }

  /** What shrinking would strip from the captures so far and keeps once there are more. */
  lemma KeptOnlyNow(before: seq<Capture>, caps: seq<Capture>, i: int, p: Pod)
    requires i < |before| && KeptOffline(before + caps, i, p) && !KeptOffline(before, i, p)
    ensures i + 1 == |before| && NameUnhealthyAt(before + caps, i + 1, p)
  {
    UnhealthyInPart(before, caps, i - 1, p);
    UnhealthyInPart(before, caps, i, p);
    if i + 1 < |before| {
      UnhealthyInPart(before, caps, i + 1, p);
    }
    if NameShownEarlier(before, i, p) {
      ShownBefore(before, caps, i, p);
    }
    if NameUnhealthyOnce(before, p) {
      UnhealthyBefore(before, caps, p);
    }
  }

  ghost predicate Identified(caps: seq<Capture>) {
    OneRowPerPod(caps) && KeysIdentify(caps) && NamesIdentify(caps)
  }

  lemma IdentifiedBefore(before: seq<Capture>, caps: seq<Capture>)
    requires Identified(before + caps)
    ensures Identified(before)
  {
    forall i, j | IsPodRow(before, i, j)
      ensures IsPodRow(before + caps, i, j) && PodAt(before + caps, i, j) == PodAt(before, i, j)
      ensures KeyOfRow(before + caps, i, j) == KeyOfRow(before, i, j)
    {
    }
  }

  lemma IdentifiedAfter(before: seq<Capture>, caps: seq<Capture>)
    requires Identified(before + caps)
    ensures Identified(caps)
  {
    var b := |before|;
    forall i, j | IsPodRow(caps, i, j)
      ensures IsPodRow(before + caps, b + i, j) && PodAt(before + caps, b + i, j) == PodAt(caps, i, j)
      ensures KeyOfRow(before + caps, b + i, j) == KeyOfRow(caps, i, j)
    {
      assert (before + caps)[b + i] == caps[i];
    }
  }

  lemma KeptBecause(caps: seq<Capture>, i: int, p: Pod) returns (u: int)
    requires KeptOffline(caps, i, p) && NameShownEarlier(caps, i, p)
    ensures NameUnhealthyAt(caps, u, p) && i - 1 <= u <= i + 1
  {
    u := if NameUnhealthyAt(caps, i - 1, p) then i - 1 else if NameUnhealthyAt(caps, i, p) then i else i + 1;
  }

  lemma UnhealthyRowAfter(before: seq<Capture>, caps: seq<Capture>, u: int, p: Pod) returns (m: int)
    requires |before| <= u && NameUnhealthyAt(before + caps, u, p)
    ensures Shows(caps, u - |before|, m, p) && RowUnhealthy(caps[u - |before|].rows[m])
  {
    m :| Shows(before + caps, u, m, p) && RowUnhealthy((before + caps)[u].rows[m]);
    NewRow(before, caps, u, m);
  }

  lemma OwnUnhealthy(caps: seq<Capture>, x: int, j: int, u: int, m: int)
    requires NamesIdentify(caps) && IsPodRow(caps, x, j) && Shows(caps, u, m, PodAt(caps, x, j)) && RowUnhealthy(caps[u].rows[m])
    requires u == x - 1 || u == x || u == x + 1
    ensures OwnReason(caps, x, j)
  {
    assert KeyOfRow(caps, u, m) == KeyOfRow(caps, x, j);
    assert PodKey(caps[u].rows[m]) == KeyOfRow(caps, x, j);
    assert ShownUnhealthy(caps, u, KeyOfRow(caps, x, j));
  }

  lemma NotUnhealthyNow(before: seq<Capture>, caps: seq<Capture>, x: int, j: int, u: int)
    requires NamesIdentify(caps) && IsPodRow(caps, x, j) && !OwnReason(caps, x, j)
    requires |before| <= u && |before| + x - 1 <= u <= |before| + x + 1
    ensures !NameUnhealthyAt(before + caps, u, PodAt(caps, x, j))
  {
    if NameUnhealthyAt(before + caps, u, PodAt(caps, x, j)) {
      var m := UnhealthyRowAfter(before, caps, u, PodAt(caps, x, j));
      OwnUnhealthy(caps, x, j, u - |before|, m);
    }
  }

  /** A recording drops nothing that shrinking would keep when it ends. */
  lemma RecordingDropsWell(before: seq<Capture>, caps: seq<Capture>, i: int, x: int, j: int)
    requires Identified(caps) && IsPodRow(caps, x, j) && !OwnReason(caps, x, j) && i == |before| + x
    ensures !KeptOffline(before + caps, i, PodAt(caps, x, j))
  {
    var p := PodAt(caps, x, j);
    var x', j' := EarlierRow(caps, x, j);
    NewerFacts(before, caps, x, p);
    if KeptOffline(before + caps, i, p) {
      var u := KeptBecause(before + caps, i, p);
      NotUnhealthyNow(before, caps, x, j, u);
    }
  }

  lemma PhaseDropsWell(before: seq<Capture>, s: Phase, i: int, j: int)
    requires Identified(before + CapsOf(s)) && IsPodRow(before + CapsOf(s), i, j) && DropsRow(before, s, i, j)
    ensures !KeptOffline(before + CapsOf(s), i, PodAt(before + CapsOf(s), i, j))
  {
    if s.Incidents? {
      NewRow(before, s.caps, i, j);
      IdentifiedAfter(before, s.caps);
      RecordingDropsWell(before, s.caps, i, i - |before|, j);
    } else {
      NoMoreCaptures(before);
    }
  }

  /** So a dropped row is missed only when the next capture is the first of a later phase, and the pod
      is unhealthy in it. */
  lemma {:induction false} OnlySeamsHarm(life: seq<Phase>, i: int, j: int)
    requires Identified(Captured(life)) && IsPodRow(Captured(life), i, j) && Dropped(life, i, j)
    requires KeptOffline(Captured(life), i, PodAt(Captured(life), i, j))
    ensures IsSeam(life, i + 1) && NameUnhealthyAt(Captured(life), i + 1, PodAt(Captured(life), i, j))
  {
    var before, s := Captured(Front(life)), Last(life);
    if DropsRow(before, s, i, j) {
      PhaseDropsWell(before, s, i, j);
      assert false;
    } else {
      var p := PodAt(before, i, j);
      OldRow(before, CapsOf(s), i, j);
      if KeptOffline(before, i, p) {
        IdentifiedBefore(before, CapsOf(s));
        OnlySeamsHarm(Front(life), i, j);
        StillUnhealthy(before, CapsOf(s), i + 1, p);
      } else {
        KeptOnlyNow(before, CapsOf(s), i, p);
      }
    }
  }

  lemma StillUnhealthy(before: seq<Capture>, caps: seq<Capture>, u: int, p: Pod)
    requires NameUnhealthyAt(before, u, p)
    ensures NameUnhealthyAt(before + caps, u, p)
  {
    UnhealthyInPart(before, caps, u, p);
  }

  /** When names and UIDs go together, a file's life and a shrink in the end agree with recording in full
      and shrinking once, exactly when no pod goes bad right at a seam behind a dropped row. */
  lemma SeamsDecide(life: seq<Phase>)
    requires GoodLife(life) && KeysIdentify(Captured(life)) && NamesIdentify(Captured(life))
    ensures var all := Captured(life);
            Shrunk(Lived(life), RunIds(all)) == Shrunk(FullFile(all), RunIds(all)) <==> CalmSeams(life)
  {
    var all := Captured(life);
    GoodCaptured(life);
    GoodRunsHaveOneRowPerPod(all);
    LifeAndShrinkingCommute(life);
    if CalmSeams(life) {
      forall i, j | IsPodRow(all, i, j) && Dropped(life, i, j)
        ensures !KeptOffline(all, i, PodAt(all, i, j))
      {
        if KeptOffline(all, i, PodAt(all, i, j)) {
          OnlySeamsHarm(life, i, j);
        }
      }
    }
    if DropsHarmless(life) {
      forall i, j | IsPodRow(all, i, j) && Dropped(life, i, j) && IsSeam(life, i + 1)
        ensures !NameUnhealthyAt(all, i + 1, PodAt(all, i, j))
      {
        assert !KeptOffline(all, i, PodAt(all, i, j));
      }
    }
  }

  /** A healthy row whose name is unhealthy in the next capture lies beside the start of an incident. */
  lemma IncidentStarts(caps: seq<Capture>, i: int, j: int)
    requires OneRowPerPod(caps) && IsPodRow(caps, i, j) && !RowUnhealthy(caps[i].rows[j])
    requires NameUnhealthyAt(caps, i + 1, PodAt(caps, i, j))
    ensures BesideStart(caps, i, j, i + 1)
  {
    var p := PodAt(caps, i, j);
    assert Shows(caps, i, j, p);
    assert NameShownAt(caps, i, p) && !NameUnhealthyAt(caps, i, p);
    assert LastShown(caps, i + 1, i, p);
  }

  lemma CalmSpares(life: seq<Phase>, i: int, j: int, u: int)
    requires GoodLife(life) && Identified(Captured(life)) && CalmSeams(life) && BesideStart(Captured(life), i, j, u)
    ensures !Dropped(life, i, j)
  {
    if Dropped(life, i, j) {
      StartIsKept(Captured(life), i, j, u);
      OnlySeamsHarm(life, i, j);
    }
  }

  lemma SparedIsCalm(life: seq<Phase>, i: int, j: int)
    requires GoodLife(life) && Identified(Captured(life)) && DropsSpareStarts(life)
    requires IsPodRow(Captured(life), i, j) && Dropped(life, i, j)
    ensures !NameUnhealthyAt(Captured(life), i + 1, PodAt(Captured(life), i, j))
  {
    if NameUnhealthyAt(Captured(life), i + 1, PodAt(Captured(life), i, j)) {
      if RowUnhealthy(Captured(life)[i].rows[j]) {
        LifeSparesUnhealthy(life, i, j);
      }
      IncidentStarts(Captured(life), i, j);
    }
  }

  /** When names and UIDs go together the same seams decide about the evidence of the incidents. */
  lemma SeamsDecideEvidence(life: seq<Phase>)
    requires GoodLife(life) && RowsHaveContent(Captured(life)) && KeysIdentify(Captured(life)) && NamesIdentify(Captured(life))
    ensures KeepsEvidence(Captured(life), Lived(life)) <==> CalmSeams(life)
  {
    GoodCaptured(life);
    GoodRunsHaveOneRowPerPod(Captured(life));
    LifeKeepsEvidence(life);
    if CalmSeams(life) {
      forall i, j, u | BesideStart(Captured(life), i, j, u)
        ensures !Dropped(life, i, j)
      {
        CalmSpares(life, i, j, u);
      }
    }
    if DropsSpareStarts(life) {
      forall i, j | IsPodRow(Captured(life), i, j) && Dropped(life, i, j) && IsSeam(life, i + 1)
        ensures !NameUnhealthyAt(Captured(life), i + 1, PodAt(Captured(life), i, j))
      {
        SparedIsCalm(life, i, j);
      }
    }
  }

  // ---- A recording interrupted at the wrong moment ----

  /** Healthy twice, then the recorder is restarted and the pod is crashing. */
  function InterruptedRun(): seq<Phase> {
    [Incidents([OnePod(0, "a", 1, "Running"), OnePod(1, "a", 1, "Running")]), Incidents([OnePod(2, "a", 0, "CrashLoopBackOff")])]
  }

  lemma InterruptedCaptures(life: seq<Phase>)
    requires life == InterruptedRun()
    ensures Captured(Front(life)) == life[0].caps && Captured(Front(Front(life))) == []
    ensures Captured(life) == [OnePod(0, "a", 1, "Running"), OnePod(1, "a", 1, "Running"), OnePod(2, "a", 0, "CrashLoopBackOff")]
  {
  }

  lemma InterruptedIsGood(life: seq<Phase>)
    requires life == InterruptedRun()
    ensures GoodLife(life)
  {
    OnePodIsGood(0, "a", 1, "Running");
    OnePodIsGood(1, "a", 1, "Running");
    OnePodIsGood(2, "a", 0, "CrashLoopBackOff");
  }

  lemma OnePodIdentified(caps: seq<Capture>)
    requires caps == [OnePod(0, "a", 1, "Running"), OnePod(1, "a", 1, "Running"), OnePod(2, "a", 0, "CrashLoopBackOff")]
    ensures KeysIdentify(caps) && NamesIdentify(caps)
  {
    forall i, j | IsPodRow(caps, i, j)
      ensures PodAt(caps, i, j) == Pod("shop", "web-0") && KeyOfRow(caps, i, j) == "a"
    {
    }
  }

  lemma CrashFollows(all: seq<Capture>)
    requires |all| == 3 && all[1] == OnePod(1, "a", 1, "Running") && all[2] == OnePod(2, "a", 0, "CrashLoopBackOff")
    ensures IsPodRow(all, 1, 0) && KeptOffline(all, 1, PodAt(all, 1, 0))
  {
    ReplacedPodHealth();
    assert Shows(all, 2, 0, PodAt(all, 1, 0)) && RowUnhealthy(all[2].rows[0]);
    assert NameUnhealthyAt(all, 2, PodAt(all, 1, 0));
  }

  /** Restarting the recorder does cost the state just before a crash, which shrinking a full recording
      would have kept. */
  lemma InterruptionBreaksAgreement(life: seq<Phase>)
    requires life == InterruptedRun()
    ensures GoodLife(life) && KeysIdentify(Captured(life)) && NamesIdentify(Captured(life))
    ensures var all := Captured(life); Shrunk(Lived(life), RunIds(all)) != Shrunk(FullFile(all), RunIds(all))
  {
    InterruptedIsGood(life);
    InterruptedCaptures(life);
    OnePodIdentified(Captured(life));
    HealthyTwiceDropped(life[0].caps, "b");
    CrashFollows(Captured(life));
    assert Dropped(Front(life), 1, 0);
    assert Dropped(life, 1, 0);
    LifeAndShrinkingCommute(life);
  }
}
