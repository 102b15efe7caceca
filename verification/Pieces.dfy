/** Splitting text at a separator and joining it back, shared by the log ring and the detail view. */
module Pieces {
  function Last<T>(p: seq<T>): T
    requires p != []
  {
    p[|p| - 1]
  }

  function Front<T>(p: seq<T>): seq<T>
    requires p != []
  {
    p[..|p| - 1]
  }

  /** One more element: a separator opens a new piece, anything else lengthens the last one. */
  function Grown<T(==)>(p: seq<seq<T>>, x: T, sep: T): (q: seq<seq<T>>)
    requires p != []
    ensures q != []
  {
    if x == sep then p + [[]] else Front(p) + [Last(p) + [x]]
  }

  /** The pieces between separators; always at least one. */
  function Split<T(==)>(s: seq<T>, sep: T): (p: seq<seq<T>>)
    ensures p != []
  {
    if s == [] then [[]] else Grown(Split(Front(s), sep), Last(s), sep)
  }

  /** Every piece followed by a separator. */
  function Unlines<T>(p: seq<seq<T>>, sep: T): seq<T> {
    if p == [] then [] else Unlines(Front(p), sep) + (Last(p) + [sep])
  }

  function Join<T>(p: seq<seq<T>>, sep: T): seq<T>
    requires p != []
  {
    Unlines(Front(p), sep) + Last(p)
  }

  lemma FrontLast<T>(s: seq<T>)
    requires s != []
    ensures s == Front(s) + [Last(s)]
  {
  }

  lemma Associative<T>(a: seq<T>, b: seq<T>, c: seq<T>)
    ensures (a + b) + c == a + (b + c)
  {
  }

  lemma SplitSnoc<T>(s: seq<T>, x: T, sep: T)
    ensures Split(s + [x], sep) == Grown(Split(s, sep), x, sep)
  {
    assert Front(s + [x]) == s;
  }

  lemma UnlinesSnoc<T>(p: seq<seq<T>>, line: seq<T>, sep: T)
    ensures Unlines(p + [line], sep) == Unlines(p, sep) + (line + [sep])
  {
    assert Front(p + [line]) == p;
  }

  lemma JoinSnoc<T>(p: seq<seq<T>>, line: seq<T>, sep: T)
    ensures Join(p + [line], sep) == Unlines(p, sep) + line
  {
    assert Front(p + [line]) == p;
  }

  lemma {:induction false} UnlinesAppend<T>(p: seq<seq<T>>, q: seq<seq<T>>, sep: T)
    ensures Unlines(p + q, sep) == Unlines(p, sep) + Unlines(q, sep)
  {
    if q == [] {
      assert p + q == p;
    } else {
      var front, line := Front(q), Last(q);
      UnlinesAppend(p, front, sep);
      FrontLast(q);
      Associative(p, front, [line]);
      UnlinesSnoc(p + front, line, sep);
      Associative(Unlines(p, sep), Unlines(front, sep), line + [sep]);
    }
  }

  lemma JoinGrown<T>(p: seq<seq<T>>, x: T, sep: T)
    requires p != []
    ensures Join(Grown(p, x, sep), sep) == Join(p, sep) + [x]
  {
    var front, line := Front(p), Last(p);
    FrontLast(p);
    if x == sep {
      JoinSnoc(p, [], sep);
      UnlinesSnoc(front, line, sep);
      Associative(Unlines(front, sep), line, [sep]);
      assert Unlines(p, sep) + [] == Unlines(p, sep);
    } else {
      JoinSnoc(front, line + [x], sep);
      Associative(Unlines(front, sep), line, [x]);
    }
  }

  ghost predicate Plain<T>(p: seq<seq<T>>, sep: T) {
    forall i :: 0 <= i < |p| ==> sep !in p[i]
  }

  lemma GrownPlain<T>(p: seq<seq<T>>, x: T, sep: T)
    requires p != [] && Plain(p, sep)
    ensures Plain(Grown(p, x, sep), sep)
  {
    if x != sep {
      assert sep !in Last(p);
      assert sep !in Last(p) + [x];
    }
  }

  lemma {:induction false} SplitPlain<T>(s: seq<T>, sep: T)
    ensures Plain(Split(s, sep), sep)
  {
    if s != [] {
      SplitPlain(Front(s), sep);
      GrownPlain(Split(Front(s), sep), Last(s), sep);
    }
  }

  /** Joining undoes splitting, and no piece holds a separator. */
  lemma {:induction false} JoinSplit<T>(s: seq<T>, sep: T)
    ensures Join(Split(s, sep), sep) == s
    ensures Plain(Split(s, sep), sep)
  {
    SplitPlain(s, sep);
    if s == [] {
      JoinSnoc([], s, sep);
      assert [] + [s] == [s];
    } else {
      JoinSplit(Front(s), sep);
      JoinGrown(Split(Front(s), sep), Last(s), sep);
      FrontLast(s);
    }
  }

  lemma GrownUnder<T>(f: seq<seq<T>>, q: seq<seq<T>>, x: T, sep: T)
    requires q != []
    ensures Grown(f + q, x, sep) == f + Grown(q, x, sep)
  {
    if x == sep {
      Associative(f, q, [[]]);
    } else {
      assert Front(f + q) == f + Front(q);
      Associative(f, Front(q), [Last(q) + [x]]);
    }
  }

  lemma GrownOne<T>(line: seq<T>, x: T, sep: T)
    requires x != sep
    ensures Grown([line], x, sep) == [line + [x]]
  {
  }

  lemma {:induction false} SplitNone<T>(s: seq<T>, sep: T)
    requires sep !in s
    ensures Split(s, sep) == [s]
  {
    if s != [] {
      FrontLast(s);
      SplitNone(Front(s), sep);
      GrownOne(Front(s), Last(s), sep);
    }
  }

  /** Text appended later only touches the last piece. */
  lemma {:induction false} SplitAppend<T>(a: seq<T>, b: seq<T>, sep: T)
    ensures Split(a + b, sep) == Front(Split(a, sep)) + Split(Last(Split(a, sep)) + b, sep)
  {
    var p := Split(a, sep);
    if b == [] {
      assert a + b == a && Last(p) + b == Last(p);
      JoinSplit(a, sep);
      SplitNone(Last(p), sep);
      FrontLast(p);
    } else {
      var front, x := Front(b), Last(b);
      SplitAppend(a, front, sep);
      FrontLast(b);
      Associative(a, front, [x]);
      Associative(Last(p), front, [x]);
      SplitSnoc(a + front, x, sep);
      SplitSnoc(Last(p) + front, x, sep);
      GrownUnder(Front(p), Split(Last(p) + front, sep), x, sep);
    }
  }

  /** Cutting at the first separator. */
  lemma SplitFirst<T>(line: seq<T>, rest: seq<T>, sep: T)
    requires sep !in line
    ensures Split(line + [sep] + rest, sep) == [line] + Split(rest, sep)
  {
    SplitNone(line, sep);
    SplitSnoc(line, sep, sep);
    assert Split(line + [sep], sep) == [line] + [[]];
    SplitAppend(line + [sep], rest, sep);
    assert [] + rest == rest;
  }

  lemma SplitAt<T>(s: seq<T>, i: nat, sep: T)
    requires i < |s| && s[i] == sep && sep !in s[..i]
    ensures Split(s, sep) == [s[..i]] + Split(s[i + 1..], sep)
  {
    assert s == s[..i] + [sep] + s[i + 1..];
    SplitFirst(s[..i], s[i + 1..], sep);
  }

  /** Splitting undoes joining when no piece holds a separator. */
  lemma {:induction false} SplitJoin<T>(p: seq<seq<T>>, sep: T)
    requires p != []
    requires Plain(p, sep)
    ensures Split(Join(p, sep), sep) == p
  {
    var front, line := Front(p), Last(p);
    FrontLast(p);
    SplitNone(line, sep);
    JoinSnoc(front, line, sep);
    if front == [] {
      assert Join(p, sep) == line;
    } else {
      SplitUnlines(front, sep);
      SplitAppend(Unlines(front, sep), line, sep);
      assert [] + line == line;
    }
  }

  /** Text that ends in a separator splits into its lines and an empty rest. */
  lemma {:induction false} SplitUnlines<T>(p: seq<seq<T>>, sep: T)
    requires Plain(p, sep)
    ensures Split(Unlines(p, sep), sep) == p + [[]]
  {
    if p != [] {
      var front, line := Front(p), Last(p);
      SplitUnlines(front, sep);
      FrontLast(p);
      SplitAppend(Unlines(front, sep), line + [sep], sep);
      assert [] + (line + [sep]) == line + [sep];
      SplitNone(line, sep);
      SplitSnoc(line, sep, sep);
      LinesMore(front, line);
    }
  }

  lemma LinesMore<T>(front: seq<seq<T>>, line: seq<T>)
    ensures Front(front + [[]]) + ([line] + [[]]) == (front + [line]) + [[]]
  {
  }

  /** Index of the first separator, or -1. */
  function Find<T(==)>(s: seq<T>, sep: T): (i: int)
    ensures -1 <= i < |s|
    ensures i == -1 <==> sep !in s
    ensures 0 <= i ==> s[i] == sep && sep !in s[..i]
  {
    if s == [] then -1
    else if s[0] == sep then 0
    else
      var j := Find(s[1..], sep);
      if j < 0 then -1
      else
        assert s[..j + 1] == [s[0]] + s[1..][..j];
        j + 1
  }
}
