/** Column widths of the table view. */
module Columns {
  const SMALLEST: nat := 4

  function Min(a: nat, b: nat): nat {
    if a <= b then a else b
  }

  function Sum(s: seq<nat>): nat {
    if s == [] then 0 else Sum(s[..|s| - 1]) + s[|s| - 1]
  }

  // ---- Natural widths ----

  /** The widest text of column i among the header and the first n rows; short rows have no such cell. */
  function WidestText(header: string, rows: seq<seq<string>>, i: nat, n: nat, textWidth: string -> nat): nat
    requires n <= |rows|
  {
    if n == 0 then textWidth(header)
    else
      var before := WidestText(header, rows, i, n - 1, textWidth);
      if i < |rows[n - 1]| && textWidth(rows[n - 1][i]) > before then textWidth(rows[n - 1][i]) else before
  }

  /** One more than the widest text of each column. */
  function Natural(headers: seq<string>, rows: seq<seq<string>>, textWidth: string -> nat): (natural: seq<nat>)
    ensures |natural| == |headers|
  {
    seq(|headers|, i requires 0 <= i < |headers| => WidestText(headers[i], rows, i, |rows|, textWidth) + 1)
  }

  /** Every text fits its column's natural width with a blank to spare, and one text needs it all. */
  lemma {:induction false} NaturalFits(header: string, rows: seq<seq<string>>, i: nat, n: nat, textWidth: string -> nat)
    requires n <= |rows|
    ensures textWidth(header) <= WidestText(header, rows, i, n, textWidth)
    ensures forall r :: 0 <= r < n && i < |rows[r]| ==> textWidth(rows[r][i]) <= WidestText(header, rows, i, n, textWidth)
    ensures WidestText(header, rows, i, n, textWidth) == textWidth(header) ||
            exists r :: 0 <= r < n && i < |rows[r]| && WidestText(header, rows, i, n, textWidth) == textWidth(rows[r][i])
  {
    if n > 0 {
      NaturalFits(header, rows, i, n - 1, textWidth);
    }
  }

  /** A column's natural width leaves a blank behind its widest text, and no more. */
  lemma NaturalMeans(headers: seq<string>, rows: seq<seq<string>>, i: nat, textWidth: string -> nat)
    requires i < |headers|
    ensures var natural := Natural(headers, rows, textWidth)[i];
            && textWidth(headers[i]) < natural
            && (forall r :: 0 <= r < |rows| && i < |rows[r]| ==> textWidth(rows[r][i]) < natural)
            && (natural == textWidth(headers[i]) + 1 ||
                exists r :: 0 <= r < |rows| && i < |rows[r]| && natural == textWidth(rows[r][i]) + 1)
  {
    NaturalFits(headers[i], rows, i, |rows|, textWidth);
  }

  // ---- Fair shares ----

  function Floor(natural: seq<nat>): (floors: seq<nat>)
    ensures |floors| == |natural|
    ensures forall i :: 0 <= i < |natural| ==> floors[i] == Min(natural[i], SMALLEST)
  {
    seq(|natural|, i requires 0 <= i < |natural| => Min(natural[i], SMALLEST))
  }

  ghost predicate IsCut(w: seq<nat>, natural: seq<nat>, i: int)
    requires |w| == |natural|
  {
    0 <= i < |w| && w[i] < natural[i]
  }

  /** Widths between floor and natural where nobody gives up width for somebody wider: a column cut
      below its natural width is within 1 of every other, and not below an earlier one. */
  ghost predicate IsFair(w: seq<nat>, natural: seq<nat>) {
    && |w| == |natural|
    && (forall i :: 0 <= i < |w| ==> Min(natural[i], SMALLEST) <= w[i] <= natural[i])
    && (forall i, j :: IsCut(w, natural, i) && 0 <= j < |w| ==> w[j] <= w[i] + 1)
    && (forall i, j :: IsCut(w, natural, i) && 0 <= j < i ==> w[j] <= w[i])
  }

  /** What the layout promises: nothing is cut when everything fits, the total is met exactly when it
      can be met, and otherwise every column is at its floor. */
  ghost predicate FitsWidth(w: seq<nat>, natural: seq<nat>, width: int) {
    && IsFair(w, natural)
    && (width <= 0 || Sum(natural) <= width ==> w == natural)
    && (width > 0 && Sum(natural) > width && Sum(Floor(natural)) <= width ==> Sum(w) == width)
    && (width > 0 && Sum(Floor(natural)) > width ==> w == Floor(natural))
  }

  // ---- The promise leaves no choice ----

  lemma {:induction false} SumMonotone(a: seq<nat>, b: seq<nat>)
    requires |a| == |b| && forall i :: 0 <= i < |a| ==> a[i] <= b[i]
    ensures Sum(a) <= Sum(b)
    ensures Sum(a) == Sum(b) ==> a == b
  {
    if a != [] {
      SumMonotone(a[..|a| - 1], b[..|b| - 1]);
      if Sum(a) == Sum(b) {
        assert a == a[..|a| - 1] + [a[|a| - 1]] && b == b[..|b| - 1] + [b[|b| - 1]];
      }
    }
  }

  lemma FairSharesOfOneTotal(a: seq<nat>, b: seq<nat>, natural: seq<nat>)
    requires IsFair(a, natural) && IsFair(b, natural) && Sum(a) == Sum(b)
    ensures a == b
  {
    forall i, j | 0 <= i < |a| && 0 <= j < |a| && a[i] > b[i]
      ensures b[j] <= a[j]
    {
      NobodyGainsMore(a, b, natural, i, j);
    }
    if forall i :: 0 <= i < |a| ==> a[i] <= b[i] {
      SumMonotone(a, b);
    } else {
      SumMonotone(b, a);
    }
  }

  /** Of two fair layouts, one gives every column at least as much as the other. */
  lemma NobodyGainsMore(a: seq<nat>, b: seq<nat>, natural: seq<nat>, i: nat, j: nat)
    requires IsFair(a, natural) && IsFair(b, natural) && i < |a| && j < |a| && a[i] > b[i]
    ensures b[j] <= a[j]
  {
    assert IsCut(b, natural, i);
    assert IsCut(a, natural, j) || a[j] == natural[j];
  }

  /** The widths are determined by the natural widths and the space. */
  lemma WidthsAreDetermined(a: seq<nat>, b: seq<nat>, natural: seq<nat>, width: int)
    requires FitsWidth(a, natural, width) && FitsWidth(b, natural, width)
    ensures a == b
  {
    if width > 0 && Sum(natural) > width && Sum(Floor(natural)) <= width {
      FairSharesOfOneTotal(a, b, natural);
    }
  }

  /** No column is cut below 4; a layout that is still too wide leaves no column wider than that; and of
      columns that want the same the earlier ones give up first. */
  lemma LayoutMeans(w: seq<nat>, natural: seq<nat>, width: int, i: nat)
    requires FitsWidth(w, natural, width) && i < |w|
    ensures w[i] <= natural[i] && (w[i] < natural[i] ==> w[i] >= 4)
    ensures 0 < width < Sum(w) ==> w[i] <= 4
    ensures forall j :: i < j < |w| && natural[j] == natural[i] ==> w[i] <= w[j] <= w[i] + 1
  {
    forall j | i < j < |w| && natural[j] == natural[i]
      ensures w[i] <= w[j] <= w[i] + 1
    {
      assert IsCut(w, natural, i) || w[i] == natural[i];
      assert IsCut(w, natural, j) || w[j] == natural[j];
    }
  }

  // ---- The greedy loop ----

  lemma {:induction false} SumUpdate(s: seq<nat>, i: nat, x: nat)
    requires i < |s|
    ensures Sum(s[i := x]) == Sum(s) - s[i] + x
  {
    if i == |s| - 1 {
      assert s[i := x][..i] == s[..i];
    } else {
      SumUpdate(s[..|s| - 1], i, x);
      assert s[i := x][..|s| - 1] == s[..|s| - 1][i := x];
    }
  }

  ghost predicate IsFirstWidest(w: seq<nat>, m: nat) {
    m < |w| && (forall i :: 0 <= i < |w| ==> w[i] <= w[m]) && (forall i :: 0 <= i < m ==> w[i] < w[m])
  }

  /** Taking 1 from the first widest column is fair. */
  lemma CutWidest(w: seq<nat>, natural: seq<nat>, m: nat)
    requires IsFair(w, natural) && IsFirstWidest(w, m) && w[m] > SMALLEST
    ensures IsFair(w[m := w[m] - 1], natural) && Sum(w[m := w[m] - 1]) == Sum(w) - 1
  {
    SumUpdate(w, m, w[m] - 1);
  }

  /** When the widest column is at its floor, all are. */
  lemma AllAtFloor(w: seq<nat>, natural: seq<nat>, m: nat)
    requires IsFair(w, natural) && IsFirstWidest(w, m) && w[m] <= SMALLEST
    ensures w == Floor(natural)
  {
    forall i | 0 <= i < |w|
      ensures w[i] == Floor(natural)[i]
    {
    }
  }

  method FirstWidest(w: array<nat>) returns (m: nat)
    requires w.Length > 0
    ensures IsFirstWidest(w[..], m)
  {
    m := 0;
    for i := 1 to w.Length
      invariant m < i
      invariant forall j :: 0 <= j < i ==> w[j] <= w[m]
      invariant forall j :: 0 <= j < m ==> w[j] < w[m]
    {
      if w[i] > w[m] {
        m := i;
      }
    }
  }

  /** Row r widens the columns whose texts it outgrows. */
  method WidenFor(headers: seq<string>, rows: seq<seq<string>>, r: nat, textWidth: string -> nat, w: array<nat>)
    requires r < |rows| && w.Length == |headers|
    requires forall i :: 0 <= i < w.Length ==> w[i] == WidestText(headers[i], rows, i, r, textWidth)
    modifies w
    ensures forall i :: 0 <= i < w.Length ==> w[i] == WidestText(headers[i], rows, i, r + 1, textWidth)
  {
    var i := 0;
    while i < |rows[r]| && i < w.Length
      invariant 0 <= i <= |rows[r]|
      invariant forall j :: 0 <= j < w.Length ==>
        w[j] == WidestText(headers[j], rows, j, if j < i then r + 1 else r, textWidth)
    {
      if textWidth(rows[r][i]) > w[i] {
        w[i] := textWidth(rows[r][i]);
      }
      i := i + 1;
    }
  }

  method NaturalWidths(headers: seq<string>, rows: seq<seq<string>>, textWidth: string -> nat) returns (w: array<nat>)
    ensures fresh(w) && w[..] == Natural(headers, rows, textWidth)
  {
    w := new nat[|headers|](i requires 0 <= i < |headers| => textWidth(headers[i]));
    for r := 0 to |rows|
      invariant forall i :: 0 <= i < w.Length ==> w[i] == WidestText(headers[i], rows, i, r, textWidth)
    {
      WidenFor(headers, rows, r, textWidth, w);
    }
    for i := 0 to w.Length
      invariant forall j :: 0 <= j < w.Length ==>
        w[j] == WidestText(headers[j], rows, j, |rows|, textWidth) + (if j < i then 1 else 0)
    {
      w[i] := w[i] + 1;
    }
  }

  method Total(w: array<nat>) returns (sum: nat)
    ensures sum == Sum(w[..])
  {
    sum := 0;
    for i := 0 to w.Length
      invariant sum == Sum(w[..i])
    {
      assert w[..i + 1][..i] == w[..i];
      sum := sum + w[i];
    }
    assert w[..w.Length] == w[..];
  }

  /** One round: the widest column gives up 1, unless it is at the floor. */
  method CutOne(w: array<nat>, ghost natural: seq<nat>) returns (cut: bool)
    requires w.Length > 0 && IsFair(w[..], natural)
    modifies w
    ensures IsFair(w[..], natural)
    ensures cut ==> Sum(w[..]) == Sum(old(w[..])) - 1
    ensures !cut ==> w[..] == old(w[..]) && w[..] == Floor(natural)
  {
    ghost var was := w[..];
    var m := FirstWidest(w);
    cut := w[m] > SMALLEST;
    if cut {
      CutWidest(was, natural, m);
      w[m] := w[m] - 1;
      assert w[..] == was[m := was[m] - 1];
    } else {
      AllAtFloor(was, natural, m);
    }
  }

  method ShrinkToFit(w: array<nat>, width: int)
    requires w.Length > 0
    modifies w
    ensures FitsWidth(w[..], old(w[..]), width)
  {
    ghost var natural := w[..];
    var sum := Total(w);
    while sum > width && width > 0
      invariant IsFair(w[..], natural) && sum == Sum(w[..])
      invariant sum <= Sum(natural) && (sum < Sum(natural) ==> width > 0 && sum >= width)
    {
      var cut := CutOne(w, natural);
      if !cut {
        break;
      }
      sum := sum - 1;
    }
    FloorIsLeast(w[..], natural);
  }

  lemma FloorIsLeast(w: seq<nat>, natural: seq<nat>)
    requires IsFair(w, natural)
    ensures Sum(Floor(natural)) <= Sum(w) <= Sum(natural)
    ensures Sum(w) == Sum(Floor(natural)) ==> w == Floor(natural)
    ensures Sum(w) == Sum(natural) ==> w == natural
  {
    SumMonotone(Floor(natural), w);
    SumMonotone(w, natural);
  }

  /** Widths for the given columns in the given space; no columns, no widths. */
  method ComputeColWidths(headers: seq<string>, rows: seq<seq<string>>, width: int, textWidth: string -> nat) returns (widths: seq<nat>)
    ensures headers == [] ==> widths == []
    ensures headers != [] ==> FitsWidth(widths, Natural(headers, rows, textWidth), width)
  {
    if |headers| == 0 {
      return [];
    }
    var w := NaturalWidths(headers, rows, textWidth);
    ShrinkToFit(w, width);
    widths := w[..];
  }
}
