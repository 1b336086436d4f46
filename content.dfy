/**
 * Column content lengths: for every header column, the length of the
 * longest stringified cell in that column, header included. These lengths,
 * times the letter width, are the column widths.
 */
module ContentLength {
  import opened Wrappers
  import opened Values

  /** The `KeyError` raised when a data row has a cell beyond the last header column. */
  datatype KeyError = KeyError(key: int)

  function Max(a: nat, b: nat): nat
  {
    if a < b then b else a
  }

  /** The length of `str()` of cell `i` of a row, or 0 when the row has no such cell. */
  function CellLen(row: seq<Value>, i: int): nat
  {
    if 0 <= i < |row| then |Str(row[i])| else 0
  }

  /** The largest length of `str()` of a cell in column `i` over the rows of `table`, 0 if none. */
  function ColumnMax(table: seq<seq<Value>>, i: int): nat
  {
    if table == [] then 0 else Max(ColumnMax(table[..|table| - 1], i), CellLen(table[|table| - 1], i))
  }

  /** The keys 0 .. n - 1 of a fresh content-length dictionary. */
  function ColumnKeys(n: nat): set<int>
  {
    if n == 0 then {} else ColumnKeys(n - 1) + {n - 1}
  }

  /** A dictionary whose keys are exactly the column indices 0 .. len - 1. */
  ghost predicate Dense(m: map<int, nat>)
  {
    forall i :: i in m <==> 0 <= i < |m|
  }

  /** No data row has more cells than the header. */
  predicate RowsFit(cols: seq<Value>, rows: seq<seq<Value>>)
  {
    forall k :: 0 <= k < |rows| ==> |rows[k]| <= |cols|
  }

  lemma {:induction false} ColumnKeysMembers(n: nat)
    ensures forall i :: i in ColumnKeys(n) <==> 0 <= i < n
  {
    if n > 0 {
      ColumnKeysMembers(n - 1);
    }
  }

  lemma {:induction false} ColumnKeysCard(n: nat)
    ensures |ColumnKeys(n)| == n
  {
    if n > 0 {
      ColumnKeysCard(n - 1);
      ColumnKeysMembers(n - 1);
      assert n - 1 !in ColumnKeys(n - 1);
    }
  }

  /** Extending the table by one row takes the maximum with that row's cell. */
  lemma ColumnMaxStep(table: seq<seq<Value>>, k: int, i: int)
    requires 0 <= k < |table|
    ensures ColumnMax(table[..k + 1], i) == Max(ColumnMax(table[..k], i), CellLen(table[k], i))
  {
    assert table[..k + 1][..k] == table[..k];
  }

  /** The content-length dictionary the generator should compute, one entry per header column. */
  function ContentLens(cols: seq<Value>, rows: seq<seq<Value>>): (r: map<int, nat>)
    ensures Dense(r) && |r| == |cols|
  {
    var m := map i | i in ColumnKeys(|cols|) :: ColumnMax(rows + [cols], i);
    assert m.Keys == ColumnKeys(|cols|);
    ColumnKeysMembers(|cols|);
    ColumnKeysCard(|cols|);
    m
  }

  /** The dictionary `lens` after every column has taken the maximum with the matching cell of `row`. */
  function RaisedBy(lens: map<int, nat>, row: seq<Value>): (r: map<int, nat>)
    ensures r.Keys == lens.Keys
  {
    map i | i in lens :: Max(lens[i], CellLen(row, i))
  }

  /**
   * One pass of the inner loop of the content-length computation: every
   * cell of `row` raises the length kept for its column; a cell beyond the
   * last of the `n` columns raises `KeyError`.
   */
  method RaiseRow(lens: map<int, nat>, n: nat, row: seq<Value>) returns (r: Result<map<int, nat>, KeyError>)
    requires forall i :: i in lens <==> 0 <= i < n
    ensures r.Success? <==> |row| <= n
    ensures r.Success? ==> r.value == RaisedBy(lens, row)
    ensures r.Failure? ==> r.error == KeyError(n)
  {
    var raised := lens;
    var j := 0;
    while j < |row|
      invariant 0 <= j <= |row| && j <= n
      invariant raised.Keys == lens.Keys
      invariant forall i :: i in raised ==> raised[i] == Max(lens[i], if i < j then CellLen(row, i) else 0)
    {
      if j !in raised {
        return Failure(KeyError(j));
      }
      var cellLength := |Str(row[j])|;
      ghost var previous := raised;
      if cellLength > raised[j] {
        raised := raised[j := cellLength];
      }
      forall i | i in raised
        ensures raised[i] == Max(lens[i], if i < j + 1 then CellLen(row, i) else 0)
      {
        if i == j {
          assert cellLength == CellLen(row, j);
        } else {
          assert raised[i] == previous[i];
        }
      }
      j := j + 1;
    }
    return Success(raised);
  }

  /** Raising by row `k` of the table carries the loop state of the content-length computation from `k` rows to `k + 1`. */
  lemma RaisedByStep(cols: seq<Value>, table: seq<seq<Value>>, k: int, lens: map<int, nat>, raised: map<int, nat>)
    requires 0 <= k < |table| && |table[k]| <= |cols|
    requires forall i :: i in lens <==> 0 <= i < |cols|
    requires forall i :: 0 <= i < |cols| ==> lens[i] == ColumnMax(table[..k], i)
    requires RowsFit(cols, table[..k])
    requires raised == RaisedBy(lens, table[k])
    ensures forall i :: i in raised <==> 0 <= i < |cols|
    ensures forall i :: 0 <= i < |cols| ==> raised[i] == ColumnMax(table[..k + 1], i)
    ensures RowsFit(cols, table[..k + 1])
  {
    forall i | 0 <= i < |cols|
      ensures raised[i] == ColumnMax(table[..k + 1], i)
    {
      ColumnMaxStep(table, k, i);
    }
    var done := table[..k + 1];
    forall k' | 0 <= k' < |done|
      ensures |done[k']| <= |cols|
    {
      if k' < k {
        assert done[k'] == table[..k][k'];
      }
    }
  }

  /** Once every row of the table has been raised, the loop state is the content-length dictionary. */
  lemma RaisedAll(cols: seq<Value>, rows: seq<seq<Value>>, lens: map<int, nat>)
    requires forall i :: i in lens <==> 0 <= i < |cols|
    requires forall i :: 0 <= i < |cols| ==> lens[i] == ColumnMax((rows + [cols])[..|rows| + 1], i)
    requires RowsFit(cols, (rows + [cols])[..|rows| + 1])
    ensures RowsFit(cols, rows)
    ensures lens == ContentLens(cols, rows)
  {
    var table := rows + [cols];
    assert table[..|rows| + 1] == table;
    assert forall k :: 0 <= k < |rows| ==> rows[k] == table[k];
    ColumnKeysMembers(|cols|);
  }

  /**
   * The content-length computation. It walks the data rows and then the
   * header, raising the length kept for a column whenever a longer cell is
   * met; a cell in a column the header does not have raises `KeyError`.
   */
  method CellsContentLen(cols: seq<Value>, rows: seq<seq<Value>>) returns (r: Result<map<int, nat>, KeyError>)
    ensures r.Success? <==> RowsFit(cols, rows)
    ensures r.Success? ==> r.value == ContentLens(cols, rows)
    ensures r.Failure? ==> r.error == KeyError(|cols|)
  {
    var table := rows + [cols];
    var lens: map<int, nat> := map i | i in ColumnKeys(|cols|) :: 0;
    ColumnKeysMembers(|cols|);
    var k := 0;
    while k < |table|
      invariant 0 <= k <= |table|
      invariant forall i :: i in lens <==> 0 <= i < |cols|
      invariant forall i :: 0 <= i < |cols| ==> lens[i] == ColumnMax(table[..k], i)
      invariant RowsFit(cols, table[..k])
    {
      var raised := RaiseRow(lens, |cols|, table[k]);
      if raised.Failure? {
        assert k < |rows| && rows[k] == table[k];
        return Failure(raised.error);
      }
      RaisedByStep(cols, table, k, lens, raised.value);
      lens := raised.value;
      k := k + 1;
    }
    RaisedAll(cols, rows, lens);
    return Success(lens);
  }

  /** Every cell of column `i` fits within the column's content length. */
  lemma {:induction false} ColumnMaxBounds(table: seq<seq<Value>>, i: int, k: int)
    requires 0 <= k < |table|
    ensures CellLen(table[k], i) <= ColumnMax(table, i)
  {
    var last := |table| - 1;
    if k < last {
      ColumnMaxBounds(table[..last], i, k);
    }
  }

  /** A column's content length is 0 or the length of one of its cells. */
  lemma {:induction false} ColumnMaxAttained(table: seq<seq<Value>>, i: int)
    ensures ColumnMax(table, i) == 0
         || exists k :: 0 <= k < |table| && 0 <= i < |table[k]| && ColumnMax(table, i) == |Str(table[k][i])|
  {
    if table != [] {
      var last := |table| - 1;
      var prefix := table[..last];
      ColumnMaxAttained(prefix, i);
      if ColumnMax(table, i) != CellLen(table[last], i) {
        assert ColumnMax(table, i) == ColumnMax(prefix, i);
        if ColumnMax(prefix, i) != 0 {
          var k :| 0 <= k < |prefix| && 0 <= i < |prefix[k]| && ColumnMax(prefix, i) == |Str(prefix[k][i])|;
          assert table[k] == prefix[k];
        }
      }
    }
  }

  /**
   * The content length of every header column is the maximum of the
   * cell lengths of that column over the data rows and the header: no
   * smaller than any of them, and equal to one of them or 0.
   */
  lemma ContentLensIsColumnMaximum(cols: seq<Value>, rows: seq<seq<Value>>, i: int)
    requires 0 <= i < |cols|
    ensures i in ContentLens(cols, rows)
    ensures |Str(cols[i])| <= ContentLens(cols, rows)[i]
    ensures forall k :: 0 <= k < |rows| && i < |rows[k]| ==> |Str(rows[k][i])| <= ContentLens(cols, rows)[i]
    ensures ContentLens(cols, rows)[i] == |Str(cols[i])|
         || exists k :: 0 <= k < |rows| && i < |rows[k]| && ContentLens(cols, rows)[i] == |Str(rows[k][i])|
  {
    var table := rows + [cols];
    ColumnMaxBounds(table, i, |rows|);
    forall k | 0 <= k < |rows| && i < |rows[k]|
      ensures |Str(rows[k][i])| <= ContentLens(cols, rows)[i]
    {
      ColumnMaxBounds(table, i, k);
      assert table[k] == rows[k];
    }
    ColumnMaxAttained(table, i);
    if ContentLens(cols, rows)[i] != |Str(cols[i])| {
      assert ColumnMax(table, i) != 0 by {
        assert CellLen(table[|rows|], i) <= ColumnMax(table, i);
      }
      var k :| 0 <= k < |table| && 0 <= i < |table[k]| && ColumnMax(table, i) == |Str(table[k][i])|;
      assert k < |rows| && table[k] == rows[k];
    }
  }
}
