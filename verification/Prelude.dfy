// Shared vocabulary: optional values, table filtering and decimal numerals.

module Prelude {
  datatype Option<+T> = None | Some(value: T)

  /** The rows of a table that satisfy a condition, in table order (SQL `SELECT ... WHERE`). */
  function Where<T(!new)>(rows: seq<T>, keep: T -> bool): (r: seq<T>)
    ensures |r| <= |rows|
    ensures forall x :: x in r <==> x in rows && keep(x)
  {
    if rows == [] then []
    else
      var last := rows[|rows| - 1];
      Where(rows[..|rows| - 1], keep) + (if keep(last) then [last] else [])
  }

  lemma WhereSnoc<T(!new)>(rows: seq<T>, x: T, keep: T -> bool)
    ensures Where(rows + [x], keep) == Where(rows, keep) + (if keep(x) then [x] else [])
  {
    assert (rows + [x])[..|rows|] == rows;
  }

  lemma {:induction false} WhereAppend<T(!new)>(a: seq<T>, b: seq<T>, keep: T -> bool)
    ensures Where(a + b, keep) == Where(a, keep) + Where(b, keep)
  {
    if b == [] {
      assert a + b == a;
    } else {
      var front, last := b[..|b| - 1], b[|b| - 1];
      assert a + b == (a + front) + [last];
      WhereSnoc(a + front, last, keep);
      WhereAppend(a, front, keep);
    }
  }

  /** Filtering twice keeps exactly the rows that meet both conditions. */
  lemma {:induction false} WhereWhere<T(!new)>(rows: seq<T>, p: T -> bool, q: T -> bool, both: T -> bool)
    requires forall x :: x in rows ==> both(x) == (p(x) && q(x))
    ensures Where(Where(rows, p), q) == Where(rows, both)
  {
    if rows != [] {
      var front, last := rows[..|rows| - 1], rows[|rows| - 1];
      WhereWhere(front, p, q, both);
      assert last in rows;
      if p(last) {
        WhereSnoc(Where(front, p), last, q);
      } else {
        assert Where(rows, p) == Where(front, p);
      }
    }
  }

  /** A filter that every row passes. */
  lemma {:induction false} WhereAll<T(!new)>(rows: seq<T>, keep: T -> bool)
    requires forall x :: x in rows ==> keep(x)
    ensures Where(rows, keep) == rows
  {
    if rows != [] {
      var front, last := rows[..|rows| - 1], rows[|rows| - 1];
      assert rows == front + [last];
      WhereAll(front, keep);
    }
  }

  /** A filter that no row passes. */
  lemma {:induction false} WhereNone<T(!new)>(rows: seq<T>, keep: T -> bool)
    requires forall x :: x in rows ==> !keep(x)
    ensures Where(rows, keep) == []
  {
    if rows != [] {
      WhereNone(rows[..|rows| - 1], keep);
    }
  }

  lemma {:induction false} WhereAgree<T(!new)>(rows: seq<T>, p: T -> bool, q: T -> bool)
    requires forall x :: x in rows ==> p(x) == q(x)
    ensures Where(rows, p) == Where(rows, q)
  {
    if rows != [] {
      WhereAgree(rows[..|rows| - 1], p, q);
    }
  }

  /** A head without the separator can be cut off again. */
  lemma SplitAt(c: char, a: string, b: string, x: string, y: string)
    requires c !in a && c !in b && a + [c] + x == b + [c] + y
    ensures a == b && x == y
  {
    SeparatorComesFirst(c, a, b, x, y);
    SeparatorComesFirst(c, b, a, y, x);
    var s := a + [c] + x;
    assert a == s[..|a|] && x == s[|a| + 1..];
    assert s == b + [c] + y;
  }

  lemma SeparatorComesFirst(c: char, a: string, b: string, x: string, y: string)
    requires c !in b && a + [c] + x == b + [c] + y
    ensures |a| >= |b|
  {
    var s := b + [c] + y;
    assert (a + [c] + x)[|a|] == c;
    assert forall k :: 0 <= k < |b| ==> s[k] == b[k] && b[k] in b;
  }
}
