/** Nullable columns and totals over table rows, shared by every other module. */
module Wrappers {

  datatype Option<+T> = None | Some(value: T)

  datatype Result<+T, +E> = Ok(value: T) | Err(error: E)

  function Max(a: int, b: int): int {
    if a < b then b else a
  }

  function Min(a: int, b: int): int {
    if a < b then a else b
  }
}

/** Sums over a table: the rows in order, each given a weight. */
module Totals {

  function Total<T>(rows: seq<T>, weight: T -> int): int {
    if rows == [] then 0 else weight(rows[0]) + Total(rows[1..], weight)
  }

  lemma TotalOfTheRest<T>(rows: seq<T>, weight: T -> int)
    requires rows != []
    ensures Total(rows, weight) == weight(rows[0]) + Total(rows[1..], weight)
  {
  }

  lemma {:induction false} TotalConcat<T>(a: seq<T>, b: seq<T>, weight: T -> int)
    ensures Total(a + b, weight) == Total(a, weight) + Total(b, weight)
  {
    if a == [] {
      assert a + b == b;
    } else {
      assert (a + b)[1..] == a[1..] + b;
      TotalConcat(a[1..], b, weight);
    }
  }

  lemma TotalAppend<T>(rows: seq<T>, row: T, weight: T -> int)
    ensures Total(rows + [row], weight) == Total(rows, weight) + weight(row)
  {
    TotalConcat(rows, [row], weight);
  }

  /** Replacing one row moves the total by the difference of the two weights. */
  lemma {:induction false} TotalUpdate<T>(rows: seq<T>, i: nat, row: T, weight: T -> int)
    requires i < |rows|
    ensures Total(rows[i := row], weight) == Total(rows, weight) - weight(rows[i]) + weight(row)
  {
    if i == 0 {
      assert rows[0 := row][1..] == rows[1..];
    } else {
      assert rows[i := row][1..] == rows[1..][i - 1 := row];
      TotalUpdate(rows[1..], i - 1, row, weight);
    }
  }

  /** Two tables of one length whose rows weigh the same pairwise weigh the same. */
  lemma {:induction false} TotalPointwise<T>(a: seq<T>, b: seq<T>, wa: T -> int, wb: T -> int)
    requires |a| == |b|
    requires forall i :: 0 <= i < |a| ==> wa(a[i]) == wb(b[i])
    ensures Total(a, wa) == Total(b, wb)
  {
    if a != [] {
      forall i | 0 <= i < |a[1..]| ensures wa(a[1..][i]) == wb(b[1..][i]) {
        assert a[1..][i] == a[i + 1] && b[1..][i] == b[i + 1];
      }
      TotalPointwise(a[1..], b[1..], wa, wb);
    }
  }

  /** A weight that splits into two splits the total. */
  lemma {:induction false} TotalSplit<T>(rows: seq<T>, w: T -> int, w1: T -> int, w2: T -> int)
    requires forall i :: 0 <= i < |rows| ==> w(rows[i]) == w1(rows[i]) + w2(rows[i])
    ensures Total(rows, w) == Total(rows, w1) + Total(rows, w2)
  {
    if rows != [] {
      forall i | 0 <= i < |rows[1..]|
        ensures w(rows[1..][i]) == w1(rows[1..][i]) + w2(rows[1..][i])
      {
        assert rows[1..][i] == rows[i + 1];
      }
      TotalSplit(rows[1..], w, w1, w2);
    }
  }

  lemma {:induction false} TotalZero<T>(rows: seq<T>, weight: T -> int)
    requires forall i :: 0 <= i < |rows| ==> weight(rows[i]) == 0
    ensures Total(rows, weight) == 0
  {
    if rows != [] {
      forall i | 0 <= i < |rows[1..]| ensures weight(rows[1..][i]) == 0 {
        assert rows[1..][i] == rows[i + 1];
      }
      TotalZero(rows[1..], weight);
    }
  }

  lemma {:induction false} TotalNonNegative<T>(rows: seq<T>, weight: T -> int)
    requires forall i :: 0 <= i < |rows| ==> weight(rows[i]) >= 0
    ensures Total(rows, weight) >= 0
    ensures forall i :: 0 <= i < |rows| ==> weight(rows[i]) <= Total(rows, weight)
  {
    if rows != [] {
      forall i | 0 <= i < |rows[1..]| ensures weight(rows[1..][i]) >= 0 {
        assert rows[1..][i] == rows[i + 1];
      }
      TotalNonNegative(rows[1..], weight);
      forall i | 0 <= i < |rows| ensures weight(rows[i]) <= Total(rows, weight) {
        if i > 0 { assert rows[i] == rows[1..][i - 1]; }
      }
    }
  }
}
