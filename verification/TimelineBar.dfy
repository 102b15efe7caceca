/** The snapshot scrubber: n snapshots bucketed into the cells of a bar. */
module TimelineBar {
  import opened History
  import opened Division

  // ---- Positions ----

  /** The cell of snapshot i, before clamping. */
  function Place(i: nat, bar: nat, n: nat): nat
    requires n > 1 && bar > 0
  {
    Scaled(i, bar - 1, n - 1)
  }

  function Clamped(p: int, bar: nat): int {
    if p < 0 then 0 else if p >= bar then bar - 1 else p
  }

  /** The cell of snapshot i as the program computes it. */
  function CellOf(i: nat, bar: nat, n: nat): int
    requires bar > 0
  {
    if n > 1 then Clamped(Place(i, bar, n), bar) else 0
  }

  /** The exact position of point i of n, spread evenly from the first cell to the last, is at or right of
      cell p and left of the next. */
  ghost predicate LiesIn(i: nat, p: nat, bar: nat, n: nat)
    requires n > 1 && bar > 0
  {
    p * (n - 1) <= i * (bar - 1) < p * (n - 1) + (n - 1)
  }

  /** That cell is the snapshot's place. */
  lemma PlaceIsWhere(i: nat, p: nat, bar: nat, n: nat)
    requires n > 1 && bar > 0
    ensures Place(i, bar, n) == p <==> LiesIn(i, p, bar, n)
  {
    QuotientBounds(i * (bar - 1), n - 1);
    if LiesIn(i, p, bar, n) {
      QuotientIs(i * (bar - 1), n - 1, p);
    }
  }

  /** Clamping never happens. */
  lemma PlaceInBounds(i: nat, bar: nat, n: nat)
    requires n > 1 && bar > 0 && i < n
    ensures 0 <= Place(i, bar, n) < bar
    ensures CellOf(i, bar, n) == Place(i, bar, n)
  {
    PlaceMonotone(i, n - 1, bar, n);
    PlaceEnds(bar, n);
  }

  lemma PlaceMonotone(i: nat, j: nat, bar: nat, n: nat)
    requires n > 1 && bar > 0 && i <= j
    ensures Place(i, bar, n) <= Place(j, bar, n)
  {
    ScaledMonotone(i, j, bar - 1, n - 1);
  }

  /** The first snapshot sits at the left end and the last at the right end. */
  lemma PlaceEnds(bar: nat, n: nat)
    requires n > 1 && bar > 0
    ensures Place(0, bar, n) == 0 && Place(n - 1, bar, n) == bar - 1
  {
    ScaledEnds(bar - 1, n - 1);
  }

  /** With room for all, no two snapshots share a cell. */
  lemma PlaceInjective(i: nat, j: nat, bar: nat, n: nat)
    requires 1 < n <= bar && i < j
    ensures Place(i, bar, n) < Place(j, bar, n)
  {
    ScaledInjective(i, j, bar - 1, n - 1);
  }

  /** With more snapshots than cells, no cell is left out. */
  lemma PlaceOnto(p: nat, bar: nat, n: nat) returns (i: nat)
    requires 1 < bar <= n && p < bar
    ensures i < n && Place(i, bar, n) == p
  {
    i := ScaledOnto(p, bar - 1, n - 1);
  }

  // ---- Severities ----

  predicate IsBucketed(i: nat, p: nat, incidents: seq<Severity>, bar: nat, n: nat)
    requires bar > 0
  {
    i < |incidents| && i < n && CellOf(i, bar, n) == p
  }

  /** A cell shows the worst of exactly the snapshots it stands for. */
  ghost predicate IsWorst(sev: Severity, p: nat, incidents: seq<Severity>, bar: nat, n: nat, upto: nat)
    requires bar > 0
  {
    && (forall i: nat :: i < upto && IsBucketed(i, p, incidents, bar, n) ==> AtMost(incidents[i], sev))
    && (sev != NoIncident ==> exists i: nat :: i < upto && IsBucketed(i, p, incidents, bar, n) && incidents[i] == sev)
  }

  lemma CellInBar(i: nat, bar: nat, n: nat)
    requires bar > 0 && i < n
    ensures 0 <= CellOf(i, bar, n) < bar
  {
  }

  lemma NextBucket(sev: Severity, p: nat, incidents: seq<Severity>, bar: nat, n: nat, i: nat, sev': Severity)
    requires bar > 0 && i < n && i < |incidents| && IsWorst(sev, p, incidents, bar, n, i)
    requires sev' == if CellOf(i, bar, n) == p then Worse(sev, incidents[i]) else sev
    ensures IsWorst(sev', p, incidents, bar, n, i + 1)
  {
    if CellOf(i, bar, n) == p {
      assert IsBucketed(i, p, incidents, bar, n);
    }
    if sev' == sev && sev != NoIncident {
      var j: nat :| j < i && IsBucketed(j, p, incidents, bar, n) && incidents[j] == sev;
      assert j < i + 1;
    }
  }

  /** The severities of the cells of a bar over n snapshots. */
  method Buckets(bar: nat, n: nat, incidents: seq<Severity>) returns (posSev: seq<Severity>)
    requires bar > 0 && n > 0
    ensures |posSev| == bar
    ensures forall p :: 0 <= p < bar ==> IsWorst(posSev[p], p, incidents, bar, n, n)
  {
    var cells := new Severity[bar](_ => NoIncident);
    if |incidents| > 0 {
      if n == 1 {
        assert IsWorst(NoIncident, 0, incidents, bar, n, 0);
        NextBucket(NoIncident, 0, incidents, bar, n, 0, incidents[0]);
        if !AtMost(incidents[0], cells[0]) {
          cells[0] := incidents[0];
        }
      } else {
        BucketAll(cells, n, incidents);
      }
    }
    posSev := cells[..];
  }

  method BucketAll(cells: array<Severity>, n: nat, incidents: seq<Severity>)
    requires cells.Length > 0 && n > 1 && forall p :: 0 <= p < cells.Length ==> cells[p] == NoIncident
    modifies cells
    ensures forall p :: 0 <= p < cells.Length ==> IsWorst(cells[p], p, incidents, cells.Length, n, n)
  {
    var lim := if |incidents| < n then |incidents| else n;
    for i := 0 to lim
      invariant forall p :: 0 <= p < cells.Length ==> IsWorst(cells[p], p, incidents, cells.Length, n, i)
    {
      BucketOne(cells, n, incidents, i);
    }
  }

  method BucketOne(cells: array<Severity>, n: nat, incidents: seq<Severity>, i: nat)
    requires cells.Length > 0 && n > 1 && i < n && i < |incidents|
    requires forall p :: 0 <= p < cells.Length ==> IsWorst(cells[p], p, incidents, cells.Length, n, i)
    modifies cells
    ensures forall p :: 0 <= p < cells.Length ==> IsWorst(cells[p], p, incidents, cells.Length, n, i + 1)
  {
    ghost var was := cells[..];
    CellInBar(i, cells.Length, n);
    var sev := incidents[i];
    if sev != NoIncident {
      var p := Clamped(Place(i, cells.Length, n), cells.Length);
      if !AtMost(sev, cells[p]) {
        cells[p] := sev;
      }
    }
    forall p | 0 <= p < cells.Length
      ensures IsWorst(cells[p], p, incidents, cells.Length, n, i + 1)
    {
      NextBucket(was[p], p, incidents, cells.Length, n, i, cells[p]);
    }
  }

  /** The worst of a cell is unique. */
  lemma WorstIsUnique(a: Severity, b: Severity, p: nat, incidents: seq<Severity>, bar: nat, n: nat)
    requires bar > 0 && IsWorst(a, p, incidents, bar, n, n) && IsWorst(b, p, incidents, bar, n, n)
    ensures a == b
  {
    if a != NoIncident {
      var i: nat :| i < n && IsBucketed(i, p, incidents, bar, n) && incidents[i] == a;
    }
    if b != NoIncident {
      var i: nat :| i < n && IsBucketed(i, p, incidents, bar, n) && incidents[i] == b;
    }
  }

  // ---- The bar ----

  datatype Glyph = Line | Tick | Marker | Cursor(following: bool)

  /** One character with the severity that colours it. */
  datatype Cell = Cell(glyph: Glyph, severity: Severity)

  const TICKS: nat := 5

  function TickPositions(width: nat, n: nat): (ticks: seq<nat>)
    ensures |ticks| == if n < 2 || width < n then 0 else n
  {
    if n < 2 || width < n then [] else seq(n, i requires 0 <= i < n => Place(i, width, n))
  }

  /** Ticks run from one end of the bar to the other without meeting, evenly spread. */
  lemma TicksSpanTheBar(width: nat, n: nat)
    requires 2 <= n <= width
    ensures var ticks := TickPositions(width, n);
            && (forall i :: 0 <= i < n ==> ticks[i] < width)
            && (forall i, j :: 0 <= i < j < n ==> ticks[i] < ticks[j])
            && ticks[0] == 0 && ticks[n - 1] == width - 1
            && (forall i :: 0 <= i < n ==> LiesIn(i, ticks[i], width, n))
  {
    PlaceEnds(width, n);
    forall i | 0 <= i < n
      ensures LiesIn(i, Place(i, width, n), width, n)
    {
      PlaceIsWhere(i, Place(i, width, n), width, n);
    }
    forall i | 0 <= i < n
      ensures Place(i, width, n) < width
    {
      PlaceInBounds(i, width, n);
    }
    forall i, j | 0 <= i < j < n
      ensures Place(i, width, n) < Place(j, width, n)
    {
      PlaceInjective(i, j, width, n);
    }
  }

  function BarWidth(width: int, counter: nat): nat {
    if width - counter - 2 < 10 then 10 else width - counter - 2
  }

  method PlaceTicks(bar: array<Glyph>)
    requires bar.Length >= 10 && forall p :: 0 <= p < bar.Length ==> bar[p] == Line
    modifies bar
    ensures forall p :: 0 <= p < bar.Length ==> bar[p] == if p in TickPositions(bar.Length, TICKS) then Tick else Line
  {
    var ticks := TickPositions(bar.Length, TICKS);
    TicksSpanTheBar(bar.Length, TICKS);
    for t := 0 to |ticks|
      invariant forall p :: 0 <= p < bar.Length ==> bar[p] == if p in ticks[..t] then Tick else Line
    {
      bar[ticks[t]] := Tick;
    }
    assert ticks[..|ticks|] == ticks;
  }

  /** The bar for snapshot cur of n: the cursor wins its cell, a marker beats a tick, and every cell has
      its own severity's colour. */
  ghost predicate IsBar(out: seq<Cell>, n: nat, cur: nat, following: bool, incidents: seq<Severity>)
    requires cur < n && |out| > 0
  {
    forall p :: 0 <= p < |out| ==>
      && IsWorst(out[p].severity, p, incidents, |out|, n, n)
      && out[p].glyph == if p == CellOf(cur, |out|, n) then Cursor(following)
                         else if out[p].severity != NoIncident then Marker
                         else if p in TickPositions(|out|, TICKS) then Tick else Line
  }

  /** That says everything: there is one such bar of each width. */
  lemma BarIsDetermined(a: seq<Cell>, b: seq<Cell>, n: nat, cur: nat, following: bool, incidents: seq<Severity>)
    requires |a| == |b| > 0 && cur < n
    requires IsBar(a, n, cur, following, incidents) && IsBar(b, n, cur, following, incidents)
    ensures a == b
  {
    forall p | 0 <= p < |a|
      ensures a[p] == b[p]
    {
      WorstIsUnique(a[p].severity, b[p].severity, p, incidents, |a|, n);
    }
  }

  /** The cursor is drawn once, in the cell of its snapshot; every other cell with an incident has a marker
      and only those have; and what is left shows five evenly spread ticks. */
  lemma BarMeans(out: seq<Cell>, n: nat, cur: nat, following: bool, incidents: seq<Severity>, p: nat)
    requires cur < n && |out| >= 10 && IsBar(out, n, cur, following, incidents) && p < |out|
    ensures n == 1 ==> (out[p].glyph.Cursor? <==> p == 0)
    ensures n > 1 ==> (out[p].glyph.Cursor? <==> LiesIn(cur, p, |out|, n))
    ensures out[p].glyph.Cursor? ==> out[p].glyph.following == following
    ensures out[p].glyph == Marker <==> !out[p].glyph.Cursor? && out[p].severity != NoIncident
    ensures out[p].glyph == Tick <==> !out[p].glyph.Cursor? && out[p].severity == NoIncident && IsTickCell(p, |out|)
  {
    if n > 1 {
      PlaceInBounds(cur, |out|, n);
      PlaceIsWhere(cur, p, |out|, n);
    }
    TickCells(p, |out|);
  }

  /** One of the five points that cut the bar into quarters lies in cell p. */
  ghost predicate IsTickCell(p: nat, bar: nat)
    requires bar > 0
  {
    exists i: nat :: i < 5 && LiesIn(i, p, bar, 5)
  }

  lemma TickCells(p: nat, bar: nat)
    requires bar >= 10
    ensures p in TickPositions(bar, TICKS) <==> IsTickCell(p, bar)
  {
    var ticks := TickPositions(bar, TICKS);
    forall i: nat | i < 5
      ensures ticks[i] == p <==> LiesIn(i, p, bar, 5)
    {
      PlaceIsWhere(i, p, bar, 5);
    }
    if i: nat :| i < 5 && LiesIn(i, p, bar, 5) {
      assert ticks[i] == p;
    }
  }

  /** Draws the bar; `counter` is the length of the counter text to its right. */
  method RenderBar(width: int, counter: nat, n: nat, cur: nat, following: bool, incidents: seq<Severity>) returns (out: seq<Cell>)
    requires cur < n
    ensures |out| == BarWidth(width, counter)
    ensures if width < counter + 12 then |out| == 10 else |out| + 2 + counter == width
    ensures |TickPositions(|out|, TICKS)| == 5
    ensures IsBar(out, n, cur, following, incidents)
  {
    var barWidth := BarWidth(width, counter);
    var bar := new Glyph[barWidth](_ => Line);
    var pos := CellOf(cur, barWidth, n);
    CellInBar(cur, barWidth, n);
    PlaceTicks(bar);
    bar[pos] := Cursor(following);
    var posSev := Buckets(barWidth, n, incidents);
    out := [];
    for i := 0 to barWidth
      invariant |out| == i
      invariant forall p :: 0 <= p < i ==>
        out[p] == Cell(if p != pos && posSev[p] != NoIncident then Marker else bar[p], posSev[p])
    {
      var glyph := if i != pos && posSev[i] != NoIncident then Marker else bar[i];
      out := out + [Cell(glyph, posSev[i])];
    }
  }

  /** The cursor's cell is coloured at least as badly as its own snapshot. */
  lemma CursorShowsItsSnapshot(out: seq<Cell>, n: nat, cur: nat, incidents: seq<Severity>)
    requires cur < n && cur < |incidents| && |out| > 0
    requires forall p :: 0 <= p < |out| ==> IsWorst(out[p].severity, p, incidents, |out|, n, n)
    ensures 0 <= CellOf(cur, |out|, n) < |out|
    ensures AtMost(incidents[cur], out[CellOf(cur, |out|, n)].severity)
  {
    CellInBar(cur, |out|, n);
    assert IsBucketed(cur, CellOf(cur, |out|, n), incidents, |out|, n);
  }

  /** No incident is lost: every incident shows in some cell, and every coloured cell stands for one. */
  lemma BarShowsEveryIncident(out: seq<Cell>, n: nat, incidents: seq<Severity>)
    requires |out| > 0 && |incidents| == n
    requires forall p :: 0 <= p < |out| ==> IsWorst(out[p].severity, p, incidents, |out|, n, n)
    ensures (exists p :: 0 <= p < |out| && out[p].severity != NoIncident) <==> (exists i :: 0 <= i < n && incidents[i] != NoIncident)
  {
    if i :| 0 <= i < n && incidents[i] != NoIncident {
      CursorShowsItsSnapshot(out, n, i, incidents);
      assert out[CellOf(i, |out|, n)].severity != NoIncident;
    }
    if p :| 0 <= p < |out| && out[p].severity != NoIncident {
      var i: nat :| i < n && IsBucketed(i, p, incidents, |out|, n) && incidents[i] == out[p].severity;
    }
  }
}
