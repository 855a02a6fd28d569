/** `filter_by_date`: keep the rows whose date lies in the window, in order. */
module Filtering {
  import opened Optional
  import opened Dates

  /** The rows of `rows` whose date (read by `dateOf`, the date column) lies
      in `w`, in their original order. */
  function Filter<R>(rows: seq<R>, dateOf: R -> Date, w: Window): (kept: seq<R>)
    ensures |kept| <= |rows|
    ensures forall i | 0 <= i < |kept| :: InWindow(dateOf(kept[i]), w)
  {
    if rows == [] then []
    else (if InWindow(dateOf(rows[0]), w) then [rows[0]] else []) + Filter(rows[1..], dateOf, w)
  }

  /** `a` can be obtained from `b` by deleting elements. */
  predicate Subsequence<T(==)>(a: seq<T>, b: seq<T>)
    decreases |b|
  {
    || a == []
    || (b != [] && ((a[0] == b[0] && Subsequence(a[1..], b[1..])) || Subsequence(a, b[1..])))
  }

  /** A row survives iff its date is in the window, and it survives as many
      times as it occurs. */
  lemma {:induction false} FilterKeepsExactly<R>(rows: seq<R>, dateOf: R -> Date, w: Window, x: R)
    ensures multiset(Filter(rows, dateOf, w))[x] == if InWindow(dateOf(x), w) then multiset(rows)[x] else 0
    ensures x in Filter(rows, dateOf, w) <==> x in rows && InWindow(dateOf(x), w)
  {
    if rows != [] {
      FilterKeepsExactly(rows[1..], dateOf, w, x);
      assert rows == [rows[0]] + rows[1..];
    }
    assert x in Filter(rows, dateOf, w) <==> multiset(Filter(rows, dateOf, w))[x] > 0;
    assert x in rows <==> multiset(rows)[x] > 0;
  }

  /** Filtering commutes with concatenation: the order of the input is kept. */
  lemma {:induction false} FilterAppend<R>(a: seq<R>, b: seq<R>, dateOf: R -> Date, w: Window)
    ensures Filter(a + b, dateOf, w) == Filter(a, dateOf, w) + Filter(b, dateOf, w)
  {
    if a == [] {
      assert a + b == b;
    } else {
      var head := if InWindow(dateOf(a[0]), w) then [a[0]] else [];
      FilterAppend(a[1..], b, dateOf, w);
      assert (a + b)[0] == a[0];
      assert (a + b)[1..] == a[1..] + b;
      calc {
        Filter(a + b, dateOf, w);
        head + Filter(a[1..] + b, dateOf, w);
        head + (Filter(a[1..], dateOf, w) + Filter(b, dateOf, w));
        (head + Filter(a[1..], dateOf, w)) + Filter(b, dateOf, w);
        Filter(a, dateOf, w) + Filter(b, dateOf, w);
      }
    }
  }

  /** The result is a subsequence of the input. */
  lemma {:induction false} FilterIsSubsequence<R>(rows: seq<R>, dateOf: R -> Date, w: Window)
    ensures Subsequence(Filter(rows, dateOf, w), rows)
  {
    if rows != [] {
      FilterIsSubsequence(rows[1..], dateOf, w);
      var rest := Filter(rows[1..], dateOf, w);
      if InWindow(dateOf(rows[0]), w) {
        var kept := Filter(rows, dateOf, w);
        assert kept == [rows[0]] + rest;
        assert kept[0] == rows[0] && kept[1..] == rest;
      } else {
        assert Filter(rows, dateOf, w) == rest;
      }
    }
  }

  /** A sequence whose every row is in the window passes unchanged. */
  lemma {:induction false} FilterKeepsAllInWindow<R>(rows: seq<R>, dateOf: R -> Date, w: Window)
    requires forall i | 0 <= i < |rows| :: InWindow(dateOf(rows[i]), w)
    ensures Filter(rows, dateOf, w) == rows
  {
    if rows != [] {
      FilterKeepsAllInWindow(rows[1..], dateOf, w);
      assert InWindow(dateOf(rows[0]), w);
      assert rows == [rows[0]] + rows[1..];
    }
  }

  /** Filtering twice with the same window is filtering once. */
  lemma {:induction false} FilterIdempotent<R>(rows: seq<R>, dateOf: R -> Date, w: Window)
    ensures Filter(Filter(rows, dateOf, w), dateOf, w) == Filter(rows, dateOf, w)
  {
    FilterKeepsAllInWindow(Filter(rows, dateOf, w), dateOf, w);
  }

  /** A window with no bounds excludes nothing. */
  lemma {:induction false} FilterUnbounded<R>(rows: seq<R>, dateOf: R -> Date)
    ensures Filter(rows, dateOf, Window(None, None)) == rows
  {
    FilterKeepsAllInWindow(rows, dateOf, Window(None, None));
  }

  /** Filtering by the start bound and then by the end bound is filtering by
      the whole window. */
  lemma {:induction false} FilterInStages<R>(rows: seq<R>, dateOf: R -> Date, start: Option<Date>, end: Option<Date>)
    ensures Filter(Filter(rows, dateOf, Window(start, None)), dateOf, Window(None, end))
         == Filter(rows, dateOf, Window(start, end))
  {
    if rows != [] {
      FilterInStages(rows[1..], dateOf, start, end);
      var lower := Filter(rows, dateOf, Window(start, None));
      var rest := Filter(rows[1..], dateOf, Window(start, None));
      if InWindow(dateOf(rows[0]), Window(start, None)) {
        assert lower == [rows[0]] + rest;
        assert lower[0] == rows[0] && lower[1..] == rest;
      } else {
        assert lower == rest;
      }
    }
  }

  /** A row dated exactly on a bound is kept, provided the window is not
      empty (start not after end). */
  lemma {:induction false} BoundsAreInclusive<R>(rows: seq<R>, dateOf: R -> Date, w: Window, x: R)
    requires x in rows
    requires w.start == Some(dateOf(x)) || w.end == Some(dateOf(x))
    requires w.start.Some? && w.end.Some? ==> NotAfter(w.start.value, w.end.value)
    ensures x in Filter(rows, dateOf, w)
  {
    NotAfterIsTotalOrder(dateOf(x), dateOf(x), dateOf(x));
    FilterKeepsExactly(rows, dateOf, w, x);
  }

  /** One boolean-mask selection `df[mask]`: a loop over the rows keeping
      those in `w`. */
  method KeepInWindow<R>(rows: seq<R>, dateOf: R -> Date, w: Window) returns (kept: seq<R>)
    ensures kept == Filter(rows, dateOf, w)
  {
    kept := [];
    var i := 0;
    while i < |rows|
      invariant 0 <= i <= |rows|
      invariant kept == Filter(rows[..i], dateOf, w)
    {
      FilterAppend(rows[..i], [rows[i]], dateOf, w);
      assert rows[..i + 1] == rows[..i] + [rows[i]];
      if InWindow(dateOf(rows[i]), w) {
        kept := kept + [rows[i]];
      }
      i := i + 1;
    }
    assert rows[..|rows|] == rows;
  }

  /** `filter_by_date`: the frame is rebound by a start-bound selection when a
      start is given, then by an end-bound selection when an end is given. */
  method FilterByDate<R>(df: seq<R>, dateOf: R -> Date, start: Option<Date>, end: Option<Date>)
    returns (out: seq<R>)
    ensures out == Filter(df, dateOf, Window(start, end))
  {
    out := df;
    if start.Some? {
      out := KeepInWindow(out, dateOf, Window(start, None));
    } else {
      FilterUnbounded(df, dateOf);
    }
    ghost var afterStart := out;
    assert afterStart == Filter(df, dateOf, Window(start, None));
    if end.Some? {
      out := KeepInWindow(out, dateOf, Window(None, end));
    } else {
      FilterUnbounded(afterStart, dateOf);
    }
    FilterInStages(df, dateOf, start, end);
  }
}
