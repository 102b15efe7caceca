/** Moving the timeline cursor: steps, page jumps, incident jumps and reloads, with or without a drill. */
module Navigation {
  import opened History
  import opened FileView
  import opened Incidents

  /** The part of the viewer's state that navigation reads and writes. */
  datatype Viewer = Viewer(
    snapshots: nat,                      // how many are loaded
    curSnap: nat,
    follow: bool,
    live: bool,
    incidents: seq<Severity>,
    perPod: map<string, seq<Severity>>,
    drill: Option<set<string>>)          // the pods the drill narrows to

  function NewViewer(live: bool): Viewer {
    Viewer(0, 0, live, live, [], map[], None)
  }

  // ---- The incidents in view ----

  /** v is the pointwise maximum, over n snapshots, of the vectors of the given pods. */
  ghost predicate IsUnion(v: seq<Severity>, pods: set<string>, perPod: map<string, seq<Severity>>, n: nat) {
    && |v| == n
    && (forall key, i :: key in pods && key in perPod && 0 <= i < n ==> AtMost(Entry(perPod[key], i), v[i]))
    && (forall i :: 0 <= i < n && v[i] != NoIncident ==> HasSource(v[i], i, pods, perPod))
  }

  ghost predicate HasSource(sev: Severity, i: int, pods: set<string>, perPod: map<string, seq<Severity>>) {
    exists key :: key in pods && key in perPod && Entry(perPod[key], i) == sev
  }

  predicate Narrowed(view: Viewer) {
    view.drill.Some? && |view.perPod| > 0 && |view.drill.value| > 0
  }

  /** What drives the markers: the global vector, or the union over the drill's pods. */
  ghost predicate IsEffective(v: seq<Severity>, view: Viewer) {
    if Narrowed(view) then IsUnion(v, view.drill.value, view.perPod, view.snapshots) else v == view.incidents
  }

  lemma UnionIsDetermined(a: seq<Severity>, b: seq<Severity>, pods: set<string>, perPod: map<string, seq<Severity>>, n: nat)
    requires IsUnion(a, pods, perPod, n) && IsUnion(b, pods, perPod, n)
    ensures a == b
  {
    UnionIsMonotone(a, b, pods, pods, perPod, n);
    UnionIsMonotone(b, a, pods, pods, perPod, n);
    forall i | 0 <= i < n
      ensures a[i] == b[i]
    {
      assert AtMost(a[i], b[i]) && AtMost(b[i], a[i]);
    }
  }

  /** More pods, no fewer and no lesser markers. */
  lemma UnionIsMonotone(a: seq<Severity>, b: seq<Severity>, some: set<string>, more: set<string>, perPod: map<string, seq<Severity>>, n: nat)
    requires some <= more && IsUnion(a, some, perPod, n) && IsUnion(b, more, perPod, n)
    ensures forall i :: 0 <= i < n ==> AtMost(a[i], b[i])
  {
    forall i | 0 <= i < n
      ensures AtMost(a[i], b[i])
    {
      if a[i] != NoIncident {
        var key :| key in some && key in perPod && Entry(perPod[key], i) == a[i];
        assert key in more;
      }
    }
  }

  /** Merges one pod's vector into the union of the pods merged so far. */
  lemma MergeOne(out: seq<Severity>, out': seq<Severity>, pods: set<string>, key: string, perPod: map<string, seq<Severity>>, n: nat)
    requires IsUnion(out, pods, perPod, n) && key in perPod && |out'| == n
    requires forall i :: 0 <= i < n ==> out'[i] == Worse(out[i], Entry(perPod[key], i))
    ensures IsUnion(out', pods + {key}, perPod, n)
  {
    var pods' := pods + {key};
    forall i | 0 <= i < n && out'[i] != NoIncident
      ensures HasSource(out'[i], i, pods', perPod)
    {
      if out'[i] == out[i] {
        var k :| k in pods && k in perPod && Entry(perPod[k], i) == out[i];
        assert k in pods';
      } else {
        assert key in pods';
      }
    }
  }

  lemma SkipOne(out: seq<Severity>, pods: set<string>, key: string, perPod: map<string, seq<Severity>>, n: nat)
    requires IsUnion(out, pods, perPod, n) && key !in perPod
    ensures IsUnion(out, pods + {key}, perPod, n)
  {
    forall i | 0 <= i < n && out[i] != NoIncident
      ensures HasSource(out[i], i, pods + {key}, perPod)
    {
      var k :| k in pods && k in perPod && Entry(perPod[k], i) == out[i];
      assert k in pods + {key};
    }
  }

  method MergeVector(out: array<Severity>, v: seq<Severity>)
    modifies out
    ensures forall i :: 0 <= i < out.Length ==> out[i] == Worse(old(out[i]), Entry(v, i))
  {
    var lim := if |v| > out.Length then out.Length else |v|;
    for i := 0 to lim
      invariant forall j :: 0 <= j < i ==> out[j] == Worse(old(out[j]), Entry(v, j))
      invariant forall j :: i <= j < out.Length ==> out[j] == old(out[j])
    {
      if !AtMost(v[i], out[i]) {
        out[i] := v[i];
      }
    }
  }

  method EffectiveIncidents(view: Viewer) returns (v: seq<Severity>)
    ensures IsEffective(v, view)
  {
    if view.drill.None? || |view.perPod| == 0 || |view.drill.value| == 0 {
      return view.incidents;
    }
    if view.snapshots == 0 {
      return [];
    }
    var out := new Severity[view.snapshots](_ => NoIncident);
    var todo := view.drill.value;
    while todo != {}
      invariant todo <= view.drill.value
      invariant IsUnion(out[..], view.drill.value - todo, view.perPod, view.snapshots)
      decreases |todo|
    {
      var key :| key in todo;
      ghost var was := out[..];
      assert view.drill.value - (todo - {key}) == view.drill.value - todo + {key};
      if key in view.perPod {
        MergeVector(out, view.perPod[key]);
        MergeOne(was, out[..], view.drill.value - todo, key, view.perPod, view.snapshots);
      } else {
        SkipOne(was, view.drill.value - todo, key, view.perPod, view.snapshots);
      }
      todo := todo - {key};
    }
    assert view.drill.value - todo == view.drill.value;
    v := out[..];
  }

  // ---- A drill against the whole file ----

  /** The index the viewer holds is that of its snapshots. */
  ghost predicate Indexed(view: Viewer, vs: Vectors) {
    IsIndexOf(IncidentIndex(view.incidents, view.perPod), vs, view.snapshots)
  }

  /** A drill shows no marker the whole file does not show. */
  lemma DrillIsBelowGlobal(v: seq<Severity>, view: Viewer, vs: Vectors)
    requires Indexed(view, vs) && IsEffective(v, view)
    ensures |v| == view.snapshots && forall i :: 0 <= i < |v| ==> AtMost(v[i], view.incidents[i])
  {
    if Narrowed(view) {
      forall i | 0 <= i < |v|
        ensures AtMost(v[i], view.incidents[i])
      {
        GlobalIsMaxOfStored(IncidentIndex(view.incidents, view.perPod), vs, view.snapshots, i);
      }
    }
  }

  /** The global vector is the union over all stored pods. */
  lemma GlobalIsUnionOfAll(view: Viewer, vs: Vectors, pods: set<string>)
    requires Indexed(view, vs) && view.perPod.Keys <= pods
    ensures IsUnion(view.incidents, pods, view.perPod, view.snapshots)
  {
    var idx := IncidentIndex(view.incidents, view.perPod);
    forall key, i | key in pods && key in view.perPod && 0 <= i < view.snapshots
      ensures AtMost(Entry(view.perPod[key], i), view.incidents[i])
    {
      GlobalIsMaxOfStored(idx, vs, view.snapshots, i);
    }
    forall i | 0 <= i < view.snapshots && view.incidents[i] != NoIncident
      ensures HasSource(view.incidents[i], i, pods, view.perPod)
    {
      GlobalIsMaxOfStored(idx, vs, view.snapshots, i);
      var key :| key in view.perPod && view.perPod[key][i] == view.incidents[i];
      assert Entry(view.perPod[key], i) == view.incidents[i];
    }
  }

  /** A drill that covers every pod with an incident shows the whole file's markers. */
  lemma CoveringDrillIsGlobal(v: seq<Severity>, view: Viewer, vs: Vectors)
    requires Indexed(view, vs) && IsEffective(v, view)
    requires view.drill.Some? ==> view.perPod.Keys <= view.drill.value
    ensures v == view.incidents
  {
    if Narrowed(view) {
      GlobalIsUnionOfAll(view, vs, view.drill.value);
      UnionIsDetermined(v, view.incidents, view.drill.value, view.perPod, view.snapshots);
    }
  }

  /** A drill narrows the markers to its pods, except that a drill without pods shows everything: it
      is right there only when there is nothing to show. */
  lemma DrillNarrowsUnlessEmpty(v: seq<Severity>, view: Viewer, vs: Vectors)
    requires Indexed(view, vs) && IsEffective(v, view) && view.drill.Some?
    ensures IsUnion(v, view.drill.value, view.perPod, view.snapshots) <==> view.drill.value != {} || !HasMarker(view.incidents)
  {
    if view.drill.value == {} {
      if HasMarker(view.incidents) {
        var i :| 0 <= i < |view.incidents| && view.incidents[i] != NoIncident;
        assert !HasSource(v[i], i, {}, view.perPod);
      }
    } else if !Narrowed(view) {
      assert view.perPod.Keys == {};
      GlobalIsUnionOfAll(view, vs, view.drill.value);
    }
  }

  // ---- Moving ----

  function Clamp(target: int, n: nat): nat
    requires n > 0
  {
    if target < 0 then 0 else if target > n - 1 then n - 1 else target
  }

  function JumpSnap(view: Viewer, delta: int): Viewer {
    if view.snapshots == 0 || delta == 0 then view
    else
      var target := Clamp(view.curSnap + delta, view.snapshots);
      if target == view.curSnap then view
      // Landing on the head follows again in live mode.
      else view.(curSnap := target, follow := if target == view.snapshots - 1 then view.live else false)
  }

  function Distance(a: int, b: int): nat {
    if a < b then b - a else a - b
  }

  /** A jump goes as near its target as there are snapshots, and from then on follows only at the head
      of a live file; a jump that cannot move changes nothing. */
  lemma JumpGoesNearest(view: Viewer, delta: int, k: nat)
    requires view.curSnap < view.snapshots && k < view.snapshots
    ensures var next := JumpSnap(view, delta);
            && next.curSnap < view.snapshots
            && Distance(next.curSnap, view.curSnap + delta) <= Distance(k, view.curSnap + delta)
            && (next.curSnap == view.curSnap ==> next == view)
            && (next.curSnap != view.curSnap ==> (next.follow <==> view.live && next.curSnap == view.snapshots - 1))
  {
  }

  /** About 1% of the timeline, at least 25. */
  function PageStep(view: Viewer): (step: nat)
    ensures view.snapshots < 2500 ==> step == 25
    ensures view.snapshots >= 2500 ==> step * 100 <= view.snapshots < step * 100 + 100
  {
    if view.snapshots / 100 < 25 then 25 else view.snapshots / 100
  }

  /** The snapshots that incident jumps stop at. */
  predicate IsStop(v: seq<Severity>, n: nat, i: int) {
    0 <= i < |v| && i < n && v[i] != NoIncident
  }

  ghost predicate IsNextStop(v: seq<Severity>, n: nat, cur: nat, i: int) {
    cur < i && IsStop(v, n, i) && forall k :: cur < k < i ==> !IsStop(v, n, k)
  }

  ghost predicate IsPreviousStop(v: seq<Severity>, n: nat, cur: nat, i: int) {
    i < cur && IsStop(v, n, i) && forall k :: i < k < cur ==> !IsStop(v, n, k)
  }

  /** Where an incident jump may go: to the closest stop in its direction, or nowhere when there is none. */
  ghost predicate IsIncidentJump(view: Viewer, forward: bool, v: seq<Severity>, view': Viewer) {
    || (exists i :: (if forward then IsNextStop(v, view.snapshots, view.curSnap, i) else IsPreviousStop(v, view.snapshots, view.curSnap, i)) &&
                    view' == JumpSnap(view, i - view.curSnap))
    || ((forall i :: (if forward then view.curSnap < i else i < view.curSnap) ==> !IsStop(v, view.snapshots, i)) && view' == view)
  }

  method JumpToNearestIncident(view: Viewer, direction: int, ghost v: seq<Severity>) returns (view': Viewer)
    requires IsEffective(v, view)
    ensures if direction == 0 then view' == view else IsIncidentJump(view, direction > 0, v, view')
  {
    var incidents := EffectiveIncidents(view);
    EffectiveIsDetermined(v, incidents, view);
    if |incidents| == 0 || view.snapshots == 0 || direction == 0 {
      return view;
    }
    var target := FindStop(incidents, view.snapshots, view.curSnap, direction > 0);
    if target < 0 {
      return view;
    }
    view' := JumpSnap(view, target - view.curSnap);
  }

  lemma EffectiveIsDetermined(a: seq<Severity>, b: seq<Severity>, view: Viewer)
    requires IsEffective(a, view) && IsEffective(b, view)
    ensures a == b
  {
    if Narrowed(view) {
      UnionIsDetermined(a, b, view.drill.value, view.perPod, view.snapshots);
    }
  }

  /** -1 when there is no stop that way. */
  method FindStop(v: seq<Severity>, n: nat, cur: nat, forward: bool) returns (target: int)
    ensures target == -1 || (target >= 0 && if forward then IsNextStop(v, n, cur, target) else IsPreviousStop(v, n, cur, target))
    ensures target == -1 ==> forall i :: (if forward then cur < i else i < cur) ==> !IsStop(v, n, i)
  {
    var lim := if |v| > n then n else |v|;
    target := -1;
    if forward {
      var i := cur + 1;
      while i < lim
        invariant cur < i && forall k :: cur < k < i ==> !IsStop(v, n, k)
      {
        if v[i] != NoIncident {
          return i;
        }
        i := i + 1;
      }
    } else {
      var i := cur - 1;
      while i >= 0
        invariant -1 <= i < cur && forall k :: i < k < cur ==> !IsStop(v, n, k)
        decreases i
      {
        if i < lim && v[i] != NoIncident {
          return i;
        }
        i := i - 1;
      }
    }
  }

  // ---- Incident jumps enumerate the incidents ----

  /** The stops after `cur`, in order. */
  function StopsAfter(v: seq<Severity>, n: nat, cur: nat): (stops: seq<nat>)
    decreases if cur < n then n - cur else 0
  {
    if cur + 1 >= n then []
    else (if IsStop(v, n, cur + 1) then [cur + 1] else []) + StopsAfter(v, n, cur + 1)
  }

  lemma StopsUnfold(v: seq<Severity>, n: nat, cur: nat, next: nat)
    requires next == cur + 1 < n
    ensures StopsAfter(v, n, cur) == if IsStop(v, n, next) then [next] + StopsAfter(v, n, next) else StopsAfter(v, n, next)
  {
    var rest := StopsAfter(v, n, next);
    assert [] + rest == rest;
  }

  lemma {:induction false} StopListed(v: seq<Severity>, n: nat, cur: nat, i: int)
    ensures i in StopsAfter(v, n, cur) <==> cur < i && IsStop(v, n, i)
    decreases if cur < n then n - cur else 0
  {
    if cur + 1 < n {
      StopListed(v, n, cur + 1, i);
    }
  }

  ghost predicate Ascending(s: seq<nat>) {
    forall a, b :: 0 <= a < b < |s| ==> s[a] < s[b]
  }

  lemma AscendingBehind(x: nat, s: seq<nat>)
    requires Ascending(s) && forall a :: 0 <= a < |s| ==> x < s[a]
    ensures Ascending([x] + s)
  {
  }

  lemma {:induction false} StopsAscend(v: seq<Severity>, n: nat, cur: nat)
    ensures Ascending(StopsAfter(v, n, cur))
    decreases if cur < n then n - cur else 0
  {
    if cur + 1 < n {
      var rest := StopsAfter(v, n, cur + 1);
      StopsAscend(v, n, cur + 1);
      forall a | 0 <= a < |rest|
        ensures cur + 1 < rest[a]
      {
        StopListed(v, n, cur + 1, rest[a]);
      }
      AscendingBehind(cur + 1, rest);
      StopsUnfold(v, n, cur, cur + 1);
    }
  }

  /** They are all there, once each and in order. */
  lemma StopsAreAllStops(v: seq<Severity>, n: nat, cur: nat)
    ensures var stops := StopsAfter(v, n, cur);
            && (forall i :: i in stops <==> cur < i < n && i < |v| && v[i] != NoIncident)
            && Ascending(stops)
  {
    forall i
      ensures i in StopsAfter(v, n, cur) <==> cur < i && IsStop(v, n, i)
    {
      StopListed(v, n, cur, i);
    }
    StopsAscend(v, n, cur);
  }

  lemma {:induction false} StopsAfterNext(v: seq<Severity>, n: nat, cur: nat, i: nat)
    requires IsNextStop(v, n, cur, i)
    ensures StopsAfter(v, n, cur) == [i] + StopsAfter(v, n, i)
    decreases i - cur
  {
    var next: nat := cur + 1;
    StopsUnfold(v, n, cur, next);
    if next < i {
      assert !IsStop(v, n, next);
      StopsAfterNext(v, n, next, i);
    }
  }

  /** A chain of forward jumps through one incident vector. */
  ghost predicate IsForwardRun(views: seq<Viewer>, v: seq<Severity>) {
    forall k :: 0 < k < |views| ==> IsIncidentJump(views[k - 1], true, v, views[k])
  }

  lemma JumpSnapLands(view: Viewer, i: nat)
    requires i < view.snapshots
    ensures JumpSnap(view, i - view.curSnap).curSnap == i && JumpSnap(view, i - view.curSnap).snapshots == view.snapshots
  {
  }

  /** One forward jump takes the first stop off the list, or stays when the list is empty. */
  lemma ForwardJump(view: Viewer, v: seq<Severity>, view': Viewer)
    requires IsIncidentJump(view, true, v, view')
    ensures view'.snapshots == view.snapshots
    ensures var stops := StopsAfter(v, view.snapshots, view.curSnap);
            if stops == [] then view' == view
            else view'.curSnap == stops[0] && StopsAfter(v, view.snapshots, view'.curSnap) == stops[1..]
  {
    var n, cur := view.snapshots, view.curSnap;
    var stops := StopsAfter(v, n, cur);
    forall i
      ensures i in stops <==> cur < i && IsStop(v, n, i)
    {
      StopListed(v, n, cur, i);
    }
    assert stops == [] || stops[0] in stops;
    if i :| IsNextStop(v, n, cur, i) && view' == JumpSnap(view, i - cur) {
      StopsAfterNext(v, n, cur, i);
      JumpSnapLands(view, i);
    }
  }

  /** Repeated forward jumps visit every later incident in turn and then stay put. */
  lemma {:induction false} ForwardJumpsEnumerate(views: seq<Viewer>, v: seq<Severity>, k: nat)
    requires k < |views| && IsForwardRun(views, v)
    ensures views[k].snapshots == views[0].snapshots
    ensures var stops := StopsAfter(v, views[0].snapshots, views[0].curSnap);
            && (k == 0 || stops == [] || views[k].curSnap == stops[if k <= |stops| then k - 1 else |stops| - 1])
            && (stops == [] ==> views[k] == views[0])
            && StopsAfter(v, views[0].snapshots, views[k].curSnap) == stops[if k <= |stops| then k else |stops|..]
  {
    if k > 0 {
      ForwardJumpsEnumerate(views, v, k - 1);
      ForwardJump(views[k - 1], v, views[k]);
    }
  }

  /** From one incident forward to the next and back again. */
  lemma BackUndoesForward(view: Viewer, v: seq<Severity>, forth: Viewer, back: Viewer)
    requires IsStop(v, view.snapshots, view.curSnap)
    requires IsIncidentJump(view, true, v, forth) && forth != view && IsIncidentJump(forth, false, v, back)
    ensures back.curSnap == view.curSnap
  {
    var n, cur := view.snapshots, view.curSnap;
    var i :| IsNextStop(v, n, cur, i) && forth == JumpSnap(view, i - cur);
    JumpSnapLands(view, i);
    assert IsPreviousStop(v, n, i, cur);
    if j: int :| IsPreviousStop(v, n, i, j) && back == JumpSnap(forth, j - forth.curSnap) {
      assert j == cur;
      JumpSnapLands(forth, cur);
    }
  }

  // ---- The cursor over whole sessions ----

  datatype Move =
    | Loaded(count: nat)                                             // a reload; snapshots are only appended
    | IncidentsLoaded(global: seq<Severity>, perPod: map<string, seq<Severity>>)
    | Drilled(pods: Option<set<string>>)
    | Step(delta: int)
    | Page(forward: bool)
    | IncidentJump(forward: bool)
    | Start
    | End
    | ChangePoint(index: Option<nat>)                                // where the chosen change is listed, if it is

  ghost predicate Possible(view: Viewer, move: Move) {
    match move
    case Loaded(count) => view.snapshots <= count
    case ChangePoint(Some(i)) => i < view.snapshots
    case _ => true
  }

  ghost predicate Moves(view: Viewer, move: Move, view': Viewer) {
    match move
    case Loaded(count) =>
      view' == (if count == 0 then view.(snapshots := 0)
                else if view.follow || view.snapshots == 0 || view.curSnap >= count then view.(snapshots := count, curSnap := count - 1)
                else view.(snapshots := count))
    case IncidentsLoaded(global, perPod) => view' == view.(incidents := global, perPod := perPod)
    case Drilled(pods) => view' == view.(drill := pods)
    case Step(delta) => view' == JumpSnap(view, delta)
    case Page(forward) => view' == JumpSnap(view, if forward then PageStep(view) as int else -(PageStep(view) as int))
    case IncidentJump(forward) => exists v :: IsEffective(v, view) && IsIncidentJump(view, forward, v, view')
    case Start => view' == view.(curSnap := 0, follow := false)
    case End => view' == view.(curSnap := if view.snapshots == 0 then 0 else view.snapshots - 1, follow := view.live)
    case ChangePoint(index) => view' == if index.Some? then view.(curSnap := index.value, follow := false) else view
  }

  /** The cursor is on a snapshot, and a view that follows is live and at the head. */
  ghost predicate WellPlaced(view: Viewer) {
    && (if view.snapshots == 0 then view.curSnap == 0 else view.curSnap < view.snapshots)
    && (view.follow ==> view.live && (view.snapshots == 0 || view.curSnap == view.snapshots - 1))
  }

  lemma JumpKeepsPlace(view: Viewer, delta: int)
    requires WellPlaced(view)
    ensures WellPlaced(JumpSnap(view, delta)) && JumpSnap(view, delta).live == view.live
  {
  }

  lemma IncidentJumpKeepsPlace(view: Viewer, forward: bool, v: seq<Severity>, view': Viewer)
    requires WellPlaced(view) && IsIncidentJump(view, forward, v, view')
    ensures WellPlaced(view') && view'.live == view.live
  {
    if view' != view {
      var i :| (if forward then IsNextStop(v, view.snapshots, view.curSnap, i) else IsPreviousStop(v, view.snapshots, view.curSnap, i)) &&
               view' == JumpSnap(view, i - view.curSnap);
      JumpKeepsPlace(view, i - view.curSnap);
    }
  }

  lemma LoadKeepsPlace(view: Viewer, count: nat, view': Viewer)
    requires WellPlaced(view) && view.snapshots <= count && Moves(view, Loaded(count), view')
    ensures WellPlaced(view') && view'.live == view.live
  {
  }

  lemma MoveKeepsPlace(view: Viewer, move: Move, view': Viewer)
    requires WellPlaced(view) && Possible(view, move) && Moves(view, move, view')
    ensures WellPlaced(view') && view'.live == view.live
  {
    match move {
      case Loaded(count) =>
        LoadKeepsPlace(view, count, view');
      case Step(delta) =>
        JumpKeepsPlace(view, delta);
      case Page(forward) =>
        JumpKeepsPlace(view, if forward then PageStep(view) as int else -(PageStep(view) as int));
      case IncidentJump(forward) =>
        var v :| IsEffective(v, view) && IsIncidentJump(view, forward, v, view');
        IncidentJumpKeepsPlace(view, forward, v, view');
      case _ =>
    }
  }

  ghost predicate IsSession(views: seq<Viewer>, moves: seq<Move>) {
    && |views| == |moves| + 1
    && (views[0] == NewViewer(true) || views[0] == NewViewer(false))
    && forall k :: 0 <= k < |moves| ==> Possible(views[k], moves[k]) && Moves(views[k], moves[k], views[k + 1])
  }

  /** Over any session the cursor stays on a snapshot, and following means being live and at the head. */
  lemma {:induction false} SessionsStayWellPlaced(views: seq<Viewer>, moves: seq<Move>, k: nat)
    requires IsSession(views, moves) && k < |views|
    ensures WellPlaced(views[k])
  {
    if k > 0 {
      SessionsStayWellPlaced(views, moves, k - 1);
      MoveKeepsPlace(views[k - 1], moves[k - 1], views[k]);
    }
  }

  // ---- Where the moves go ----

  /** A reload changes the count. It takes the cursor of a view that follows, or that was empty, to the
      newest snapshot, and leaves any other cursor where it is. */
  lemma ReloadMeans(view: Viewer, count: nat, view': Viewer)
    requires WellPlaced(view) && Possible(view, Loaded(count)) && Moves(view, Loaded(count), view')
    ensures view' == view.(snapshots := count, curSnap := view'.curSnap)
    ensures (view.follow || view.snapshots == 0) && count > 0 ==> view'.curSnap == count - 1
    ensures !view.follow && view.snapshots > 0 ==> view'.curSnap == view.curSnap
  {
  }

  ghost predicate OnlyReloads(moves: seq<Move>) {
    forall k :: 0 <= k < |moves| ==> moves[k].Loaded?
  }

  /** Reloads alone: a view that follows is on the newest snapshot after each. */
  lemma {:induction false} ReloadsFollow(views: seq<Viewer>, moves: seq<Move>, k: nat)
    requires IsSession(views, moves) && OnlyReloads(moves) && k < |views| && views[0].live
    ensures views[k].follow && (views[k].snapshots > 0 ==> views[k].curSnap == views[k].snapshots - 1)
  {
    if k > 0 {
      ReloadsFollow(views, moves, k - 1);
      SessionsStayWellPlaced(views, moves, k - 1);
      ReloadMeans(views[k - 1], moves[k - 1].count, views[k]);
    }
  }

  /** And a view that does not follow stays, however much is appended; only the count changes. */
  lemma {:induction false} ReloadsLeaveThePaused(views: seq<Viewer>, moves: seq<Move>, from: nat, k: nat)
    requires IsSession(views, moves) && from <= k < |views| && !views[from].follow && views[from].snapshots > 0
    requires forall m :: from <= m < k ==> moves[m].Loaded?
    ensures views[k] == views[from].(snapshots := views[k].snapshots) && views[from].snapshots <= views[k].snapshots
  {
    if from < k {
      ReloadsLeaveThePaused(views, moves, from, k - 1);
      SessionsStayWellPlaced(views, moves, k - 1);
      ReloadMeans(views[k - 1], moves[k - 1].count, views[k]);
    }
  }

  ghost predicate MovesCursor(move: Move) {
    move.Step? || move.Page? || move.IncidentJump? || move.Start? || move.End? || move.ChangePoint?
  }

  /** Moving the cursor touches the cursor and the following, and nothing else. */
  lemma CursorMovesFrame(view: Viewer, move: Move, view': Viewer)
    requires MovesCursor(move) && Moves(view, move, view')
    ensures view' == view.(curSnap := view'.curSnap, follow := view'.follow)
  {
  }

  /** Loading the incidents and drilling leave the cursor alone. */
  lemma OtherMovesFrame(view: Viewer, move: Move, view': Viewer)
    requires (move.IncidentsLoaded? || move.Drilled?) && Moves(view, move, view')
    ensures view'.curSnap == view.curSnap && view'.follow == view.follow && view'.snapshots == view.snapshots && view'.live == view.live
    ensures move.IncidentsLoaded? ==> view'.incidents == move.global && view'.perPod == move.perPod && view'.drill == view.drill
    ensures move.Drilled? ==> view'.drill == move.pods && view'.incidents == view.incidents && view'.perPod == view.perPod
  {
  }

  /** A step lands where it says unless that is past an end, and then on that end. */
  lemma StepMeans(view: Viewer, delta: int, view': Viewer)
    requires WellPlaced(view) && view.snapshots > 0 && Moves(view, Step(delta), view')
    ensures 0 <= view.curSnap + delta < view.snapshots ==> view'.curSnap == view.curSnap + delta
    ensures view.curSnap + delta < 0 ==> view'.curSnap == 0
    ensures view.curSnap + delta >= view.snapshots ==> view'.curSnap == view.snapshots - 1
  {
  }

  /** A page is 25 snapshots, or a hundredth of the timeline when that is more. */
  lemma PageMeans(view: Viewer, forward: bool, view': Viewer)
    requires WellPlaced(view) && view.snapshots > 0 && Moves(view, Page(forward), view')
    ensures var page := if view.snapshots < 2500 then 25 else view.snapshots / 100;
            if forward then view'.curSnap == view.curSnap + page || (view'.curSnap == view.snapshots - 1 <= view.curSnap + page)
            else view'.curSnap == view.curSnap - page || (view'.curSnap == 0 && view.curSnap <= page)
  {
  }

  /** Which way the cursor may go at all. */
  ghost predicate GoesItsWay(view: Viewer, move: Move, view': Viewer) {
    match move
    case Step(delta) => if delta >= 0 then view.curSnap <= view'.curSnap else view'.curSnap <= view.curSnap
    case Page(forward) => if forward then view.curSnap <= view'.curSnap else view'.curSnap <= view.curSnap
    case IncidentJump(forward) => if forward then view.curSnap <= view'.curSnap else view'.curSnap <= view.curSnap
    case Start => view'.curSnap == 0 && !view'.follow
    case End => (view.snapshots > 0 ==> view'.curSnap == view.snapshots - 1) && view'.follow == view.live
    case ChangePoint(Some(i)) => view'.curSnap == i && !view'.follow
    case ChangePoint(None) => view'.curSnap == view.curSnap && view'.follow == view.follow
    case _ => true
  }

  /** No move goes against its direction, and the absolute ones go where they say. */
  lemma MovesGoTheirWay(view: Viewer, move: Move, view': Viewer)
    requires WellPlaced(view) && Possible(view, move) && Moves(view, move, view')
    ensures GoesItsWay(view, move, view')
  {
  }
}
