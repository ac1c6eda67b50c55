/** The values the charting layer works on: pandas objects reduced to their
    numbers, the Python exceptions it raises, and the sequence arithmetic that
    pandas does on its behalf (sums, running totals, reversal, sorting). */
module Frames {

  datatype Option<+T> = None | Some(value: T) {
    function GetOr(default: T): T {
      if Some? then value else default
    }
  }

  /** The Python exceptions that escape from the charting functions. */
  datatype Error =
    | TypeError
    | AttributeError
    | ValueError
    | IndexError
    | IndexingError        // pandas' "too many indexers", e.g. a 2-D iloc on a Series
    | ZeroDivisionError
    | NotImplementedError(plottype: string)
    | OutOfModel           // the outcome is decided inside pandas or matplotlib

  datatype Result<+T> = Success(value: T) | Failure(error: Error) {
    predicate IsFailure() {
      Failure?
    }

    function PropagateFailure<U>(): Result<U>
      requires Failure?
    {
      Failure(error)
    }

    function Extract(): T
      requires Success?
    {
      value
    }
  }

  /** What the charting code is handed: a Series (its values, in index order),
      a DataFrame (its columns, each `rows` long) or any other Python object,
      of which only `len()` is ever used. `timeIndex` says whether the index is
      a DatetimeIndex. */
  datatype Data =
    | Series(values: seq<real>, timeIndex: bool)
    | Table(rows: nat, columns: seq<seq<real>>, timeIndex: bool)
    | Other(length: nat)
  {
    /** Every column of a DataFrame has one value per row. */
    predicate WellFormed() {
      Table? ==> forall c :: 0 <= c < |columns| ==> |columns[c]| == rows
    }

    /** Python's `len(data)`: the number of values of a Series, the number of
        ROWS of a DataFrame. */
    function Len(): nat {
      match this
      case Series(values, _) => |values|
      case Table(rows, _, _) => rows
      case Other(length) => length
    }
  }

  /** `squeeze()`: every axis of length 1 is dropped. A Series of one value
      and a DataFrame of one row and one column become a scalar (None); a
      DataFrame of one column becomes that column, keeping the row index; a
      DataFrame of one row becomes that row, indexed by the column labels;
      anything else keeps its shape. */
  function Squeeze(data: Data): (r: Option<Data>)
    requires data.WellFormed() && !data.Other?
    ensures r.None? <==> (data.Series? && |data.values| == 1) ||
                         (data.Table? && data.rows == 1 && |data.columns| == 1)
    ensures r.Some? ==> r.value.WellFormed() && !r.value.Other?
    ensures r.Some? && r.value.Series? ==> |r.value.values| != 1
    ensures r.Some? && r.value.Table? ==> r.value.rows != 1 && |r.value.columns| != 1
  {
    match data
    case Series(values, _) => if |values| == 1 then None else Some(data)
    case Table(rows, columns, timeIndex) =>
      if rows == 1 && |columns| == 1 then None
      else if |columns| == 1 then Some(Series(columns[0], timeIndex))
      else if rows == 1 then Some(Series(seq(|columns|, c requires 0 <= c < |columns| => columns[c][0]), false))
      else Some(data)
  }

  /** What `squeeze()` keeps: data without an axis of length 1 is left as it
      is, a single column keeps its values and its index, and a single row
      keeps its values, one per column; squeezing again changes nothing. */
  lemma SqueezeKeepsValues(data: Data)
    requires data.WellFormed() && !data.Other?
    ensures data.Series? && |data.values| != 1 ==> Squeeze(data) == Some(data)
    ensures data.Table? && data.rows != 1 && |data.columns| != 1 ==> Squeeze(data) == Some(data)
    ensures data.Table? && |data.columns| == 1 && data.rows != 1 ==>
              Squeeze(data) == Some(Series(data.columns[0], data.timeIndex))
    ensures data.Table? && data.rows == 1 && |data.columns| != 1 ==>
              var r := Squeeze(data).value;
              r.Series? && !r.timeIndex && |r.values| == |data.columns| &&
              forall c :: 0 <= c < |data.columns| ==> r.values[c] == data.columns[c][0]
    ensures Squeeze(data).Some? ==> Squeeze(Squeeze(data).value) == Squeeze(data)
  {
  }

  /** `sum()` of a sequence of numbers. */
  function Sum(s: seq<real>): real {
    if s == [] then 0.0 else s[0] + Sum(s[1..])
  }

  lemma {:induction false} SumAppend(s: seq<real>, t: seq<real>)
    ensures Sum(s + t) == Sum(s) + Sum(t)
  {
    if s == [] {
      assert s + t == t;
    } else {
      assert (s + t)[1..] == s[1..] + t;
      SumAppend(s[1..], t);
    }
  }

  /** Extending a prefix by one element adds that element to its sum. */
  lemma SumPrefixStep(s: seq<real>, i: nat)
    requires i < |s|
    ensures Sum(s[..i + 1]) == Sum(s[..i]) + s[i]
  {
    assert s[..i + 1] == s[..i] + [s[i]];
    SumAppend(s[..i], [s[i]]);
  }

  /** The running totals that pandas' `cumsum()` produces, starting from `acc`. */
  function RunningTotals(s: seq<real>, acc: real): (r: seq<real>)
    ensures |r| == |s|
  {
    if s == [] then [] else [acc + s[0]] + RunningTotals(s[1..], acc + s[0])
  }

  /** `cumsum()`: element i is the sum of elements 0..i inclusive. */
  function CumSum(s: seq<real>): (r: seq<real>)
    ensures |r| == |s|
  {
    RunningTotals(s, 0.0)
  }

  /** `cumsum().shift(1).fillna(0)`: the running totals moved down one place,
      with 0 in the vacated first place. */
  function ShiftedCumSum(s: seq<real>): (r: seq<real>)
    ensures |r| == |s|
  {
    if s == [] then [] else [0.0] + CumSum(s)[..|s| - 1]
  }

  lemma {:induction false} RunningTotalsAt(s: seq<real>, acc: real, i: nat)
    requires i < |s|
    ensures RunningTotals(s, acc)[i] == acc + Sum(s[..i + 1])
  {
    if i == 0 {
      assert s[..1] == [s[0]];
    } else {
      RunningTotalsAt(s[1..], acc + s[0], i - 1);
      assert s[..i + 1][1..] == s[1..][..i];
    }
  }

  /** The inclusive running total at i is the sum of the prefix ending at i. */
  lemma CumSumIsInclusivePrefixSum(s: seq<real>)
    ensures forall i :: 0 <= i < |s| ==> CumSum(s)[i] == Sum(s[..i + 1])
  {
    forall i | 0 <= i < |s| ensures CumSum(s)[i] == Sum(s[..i + 1]) {
      RunningTotalsAt(s, 0.0, i);
    }
  }

  /** The shifted running total at i is the sum of everything strictly before i. */
  lemma ShiftedCumSumIsExclusivePrefixSum(s: seq<real>)
    ensures forall i :: 0 <= i < |s| ==> ShiftedCumSum(s)[i] == Sum(s[..i])
  {
    forall i | 0 <= i < |s| ensures ShiftedCumSum(s)[i] == Sum(s[..i]) {
      if i > 0 {
        RunningTotalsAt(s, 0.0, i - 1);
      }
    }
  }

  /** Python's resolution of the subscript `k` on a list of length `n`:
      a negative subscript counts from the end, anything else outside the list
      is an IndexError (None). */
  function PyIndex(k: int, n: nat): (r: Option<nat>)
    ensures r.Some? <==> -(n as int) <= k < n
    ensures r.Some? ==> r.value < n
    ensures r.Some? ==> r.value as int == if k < 0 then n + k else k
  {
    if 0 <= k < n then Some(k)
    else if -(n as int) <= k < 0 then Some(n + k)
    else None
  }

  /** The slice `s[::-1]`. */
  function Reverse<T>(s: seq<T>): (r: seq<T>)
    ensures |r| == |s|
    ensures forall k :: 0 <= k < |s| ==> r[k] == s[|s| - 1 - k]
    ensures multiset(r) == multiset(s)
  {
    var r := seq(|s|, k requires 0 <= k < |s| => s[|s| - 1 - k]);
    BackwardsSameMultiset(r, s);
    r
  }

  /** A sequence that holds the elements of another in the opposite order
      holds the same elements, as many times each. */
  lemma {:induction false} BackwardsSameMultiset<T>(r: seq<T>, s: seq<T>)
    requires |r| == |s|
    requires forall k :: 0 <= k < |s| ==> r[k] == s[|s| - 1 - k]
    ensures multiset(r) == multiset(s)
  {
    if s != [] {
      var n := |s|;
      BackwardsSameMultiset(r[..n - 1], s[1..]);
      assert r == r[..n - 1] + [s[0]];
      assert s == [s[0]] + s[1..];
    }
  }

  predicate Ascending(s: seq<real>) {
    forall i, j :: 0 <= i < j < |s| ==> s[i] <= s[j]
  }

  predicate Descending(s: seq<real>) {
    forall i, j :: 0 <= i < j < |s| ==> s[i] >= s[j]
  }

  /** Places `x` into an ascending sequence, before the first element it
      does not exceed. */
  function Insert(x: real, s: seq<real>): (r: seq<real>)
    ensures |r| == |s| + 1
    ensures r[0] == x || (s != [] && r[0] == s[0])
    ensures multiset(r) == multiset(s) + multiset{x}
  {
    if s == [] || x <= s[0] then [x] + s
    else
      assert s == [s[0]] + s[1..];
      [s[0]] + Insert(x, s[1..])
  }

  lemma {:induction false} InsertKeepsAscending(x: real, s: seq<real>)
    requires Ascending(s)
    ensures Ascending(Insert(x, s))
  {
    var r := Insert(x, s);
    if s == [] || x <= s[0] {
      forall i, j | 0 <= i < j < |r| ensures r[i] <= r[j] {
        if i == 0 {
          assert r[j] == s[j - 1];
          if j > 1 { assert s[0] <= s[j - 1]; }
        } else {
          assert r[i] == s[i - 1] && r[j] == s[j - 1];
        }
      }
    } else {
      var rest := Insert(x, s[1..]);
      InsertKeepsAscending(x, s[1..]);
      assert r == [s[0]] + rest;
      assert s[0] <= rest[0];
      forall i, j | 0 <= i < j < |r| ensures r[i] <= r[j] {
        if i == 0 {
          assert r[j] == rest[j - 1];
          if j > 1 { assert rest[0] <= rest[j - 1]; }
        } else {
          assert r[i] == rest[i - 1] && r[j] == rest[j - 1];
        }
      }
    }
  }

  /** `sort_values()` on the values of a Series: the ascending permutation. */
  function SortAscending(s: seq<real>): (r: seq<real>)
    ensures multiset(r) == multiset(s)
    ensures Ascending(r)
  {
    if s == [] then []
    else
      assert s == [s[0]] + s[1..];
      var sortedTail := SortAscending(s[1..]);
      InsertKeepsAscending(s[0], sortedTail);
      Insert(s[0], sortedTail)
  }

  /** An ascending sequence read backwards is descending. */
  lemma ReverseOfAscending(s: seq<real>)
    requires Ascending(s)
    ensures Descending(Reverse(s))
  {
    var r := Reverse(s);
    forall i, j | 0 <= i < j < |r| ensures r[i] >= r[j] {
      assert r[i] == s[|s| - 1 - i] && r[j] == s[|s| - 1 - j];
    }
  }

  /** `sort_values(ascending=...)`: a permutation of the values in the
      requested direction. */
  function SortValues(s: seq<real>, ascending: bool): (r: seq<real>)
    ensures multiset(r) == multiset(s)
    ensures ascending ==> Ascending(r)
    ensures !ascending ==> Descending(r)
  {
    if ascending then SortAscending(s)
    else
      ReverseOfAscending(SortAscending(s));
      Reverse(SortAscending(s))
  }
}
