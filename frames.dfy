/** The part of the dataframe engine the splitters rely on: tables of rows keyed
    by column name, the caller's frame (which `df[c] = ...` changes in place),
    dropping a column, selecting rows by position, sorting by an integer key,
    and the label filter `split_dataset_ttv` from ludwig/utils/data_utils.py. */
module Frames {
  import opened Wrappers

  /** A cell: an integer, a string, or the list of integers Ludwig's date
      preprocessing turns a datetime into. */
  datatype Value = Int(i: int) | Str(s: string) | IntList(items: seq<int>)

  type Row = map<string, Value>

  /** An immutable frame: its column names and its rows, in order. */
  datatype Table = Table(columns: set<string>, rows: seq<Row>)

  /** The three folds: train, validation and test; a fold may be None. */
  datatype Folds = Folds(train: Option<Table>, validation: Option<Table>, test: Option<Table>)

  /** The rows of a fold, none for a None fold. */
  function FoldRows(f: Option<Table>): seq<Row> {
    if f.None? then [] else f.value.rows
  }

  /** The rows of the three folds one after another. */
  function AllRows(f: Folds): seq<Row> {
    FoldRows(f.train) + FoldRows(f.validation) + FoldRows(f.test)
  }

  /** Every row has exactly the frame's columns. */
  predicate WellFormed(t: Table) {
    forall i :: 0 <= i < |t.rows| ==> t.rows[i].Keys == t.columns
  }

  /** `df[c]`, as a sequence of cells. */
  function Column(t: Table, c: string): (vals: seq<Value>)
    requires WellFormed(t) && c in t.columns
    ensures |vals| == |t.rows|
    ensures forall i :: 0 <= i < |vals| ==> vals[i] == t.rows[i][c]
  {
    seq(|t.rows|, i requires 0 <= i < |t.rows| => t.rows[i][c])
  }

  /** `df[c] = vals` on a value: column c is added, or overwritten, row by row. */
  function WithColumn(t: Table, c: string, vals: seq<Value>): (r: Table)
    requires |vals| == |t.rows|
    ensures r.columns == t.columns + {c} && |r.rows| == |t.rows|
    ensures forall i :: 0 <= i < |t.rows| ==> r.rows[i] == t.rows[i][c := vals[i]]
    ensures WellFormed(t) ==> WellFormed(r)
  {
    Table(t.columns + {c}, seq(|t.rows|, i requires 0 <= i < |t.rows| => t.rows[i][c := vals[i]]))
  }

  /** Every row with column c removed. */
  function StripRows(rows: seq<Row>, c: string): (r: seq<Row>)
    ensures |r| == |rows|
    ensures forall i :: 0 <= i < |rows| ==> r[i] == rows[i] - {c}
  {
    seq(|rows|, i requires 0 <= i < |rows| => rows[i] - {c})
  }

  /** Writing a column twice keeps only the second write. */
  lemma WithColumnTwice(t: Table, c: string, first: seq<Value>, second: seq<Value>)
    requires |first| == |t.rows| && |second| == |t.rows|
    ensures WithColumn(WithColumn(t, c, first), c, second) == WithColumn(t, c, second)
  {
    var a, b := WithColumn(WithColumn(t, c, first), c, second), WithColumn(t, c, second);
    forall i | 0 <= i < |t.rows| ensures a.rows[i] == b.rows[i] {
      assert a.rows[i] == t.rows[i][c := first[i]][c := second[i]];
    }
  }

  /** Removing a column just written gives the rows without it. */
  lemma StripWithColumn(t: Table, c: string, vals: seq<Value>)
    requires |vals| == |t.rows|
    ensures StripRows(WithColumn(t, c, vals).rows, c) == StripRows(t.rows, c)
  {
    var r := WithColumn(t, c, vals);
    forall i | 0 <= i < |t.rows| ensures r.rows[i] - {c} == t.rows[i] - {c} {
      assert r.rows[i] == t.rows[i][c := vals[i]];
    }
  }

  /** Integers as a column of cells: the int64 timestamps of the datetime
      split, and the stratify labels, which the source holds as the float64
      values 0.0, 1.0 and 2.0 of an `np.zeros` array and are modelled here as
      `Int` cells. */
  function IntCells(xs: seq<int>): (r: seq<Value>)
    ensures |r| == |xs| && forall i :: 0 <= i < |xs| ==> r[i] == Int(xs[i])
  {
    seq(|xs|, i requires 0 <= i < |xs| => Int(xs[i]))
  }

  /** `df.drop(columns=c)`. */
  function Drop(t: Table, c: string): (r: Table)
    requires c in t.columns
    ensures r.columns == t.columns - {c} && r.rows == StripRows(t.rows, c)
    ensures WellFormed(t) ==> WellFormed(r)
  {
    Table(t.columns - {c}, StripRows(t.rows, c))
  }

  /** The positions 0, 1, ..., n - 1. */
  function Range(n: nat): (r: seq<nat>)
    ensures |r| == n
    ensures forall i :: 0 <= i < n ==> r[i] == i
  {
    if n == 0 then [] else Range(n - 1) + [n - 1]
  }

  /** perm lists every position of an n-row frame exactly once. */
  ghost predicate IsPermutation(perm: seq<nat>, n: nat) {
    multiset(perm) == multiset(Range(n))
  }

  predicate InBounds(idx: seq<nat>, n: nat) {
    forall k :: 0 <= k < |idx| ==> idx[k] < n
  }

  /** The elements of xs at positions idx, in that order (`df.iloc[idx]`). */
  function Gather<T>(xs: seq<T>, idx: seq<nat>): (r: seq<T>)
    requires InBounds(idx, |xs|)
    ensures |r| == |idx|
  {
    if idx == [] then [] else [xs[idx[0]]] + Gather(xs, idx[1..])
  }

  lemma {:induction false} GatherAppend<T>(xs: seq<T>, u: seq<nat>, v: seq<nat>)
    requires InBounds(u, |xs|) && InBounds(v, |xs|)
    ensures InBounds(u + v, |xs|)
    ensures Gather(xs, u + v) == Gather(xs, u) + Gather(xs, v)
  {
    if u == [] { assert u + v == v; } else {
      assert (u + v)[1..] == u[1..] + v;
      GatherAppend(xs, u[1..], v);
    }
  }

  lemma InBoundsSlice(b: seq<nat>, i: nat, j: nat, n: nat)
    requires InBounds(b, n) && i <= j <= |b|
    ensures InBounds(b[i..j], n)
  {
    forall m | 0 <= m < j - i ensures b[i..j][m] < n { assert b[i..j][m] == b[i + m]; }
  }

  function IndexIn(b: seq<nat>, x: nat): (k: nat)
    requires x in multiset(b)
    ensures k < |b| && b[k] == x
  {
    if b[0] == x then 0 else
      assert b == [b[0]] + b[1..];
      1 + IndexIn(b[1..], x)
  }

  lemma MultisetTail(a: seq<nat>, b: seq<nat>, k: nat)
    requires multiset(a) == multiset(b) && a != [] && k < |b| && b[k] == a[0]
    ensures multiset(a[1..]) == multiset(b[..k] + b[k + 1..])
  {
    var x := a[0];
    assert a == [x] + a[1..];
    assert b == b[..k] + [x] + b[k + 1..];
    calc {
      multiset(a[1..]);
      multiset(a) - multiset{x};
      multiset(b) - multiset{x};
      multiset(b[..k]) + multiset(b[k + 1..]);
      multiset(b[..k] + b[k + 1..]);
    }
  }

  lemma MultisetSplice<T>(p: seq<T>, e: T, q: seq<T>)
    ensures multiset(p + [e] + q) == multiset(p + q) + multiset{e}
  {
  }

  /** Selecting by b is selecting by the positions before k, then b[k], then
      the positions after k. */
  lemma {:induction false} GatherSplit<T>(xs: seq<T>, b: seq<nat>, k: nat)
    requires InBounds(b, |xs|) && k < |b|
    ensures InBounds(b[..k], |xs|) && InBounds(b[k + 1..], |xs|)
    ensures Gather(xs, b) == Gather(xs, b[..k]) + [xs[b[k]]] + Gather(xs, b[k + 1..])
  {
    InBoundsSlice(b, 0, k, |xs|);
    InBoundsSlice(b, k + 1, |b|, |xs|);
    assert b[0..k] == b[..k] && b[k + 1..|b|] == b[k + 1..];
    if k == 0 {
      assert b[..0] == [];
    } else {
      var t := b[1..];
      InBoundsSlice(b, 1, |b|, |xs|);
      assert b[1..|b|] == t;
      GatherSplit(xs, t, k - 1);
      assert t[..k - 1] == b[..k][1..];
      assert t[k..] == b[k + 1..];
    }
  }

  lemma GatherRemoveOne<T>(xs: seq<T>, b: seq<nat>, k: nat)
    requires InBounds(b, |xs|) && k < |b|
    ensures InBounds(b[..k] + b[k + 1..], |xs|)
    ensures multiset(Gather(xs, b)) == multiset(Gather(xs, b[..k] + b[k + 1..])) + multiset{xs[b[k]]}
  {
    GatherSplit(xs, b, k);
    GatherAppend(xs, b[..k], b[k + 1..]);
    MultisetSplice(Gather(xs, b[..k]), xs[b[k]], Gather(xs, b[k + 1..]));
  }

  /** Selecting by two index sequences that hold the same positions, as often
      each, yields the same rows, as often each. */
  lemma {:induction false} GatherMultiset<T>(xs: seq<T>, a: seq<nat>, b: seq<nat>)
    requires multiset(a) == multiset(b)
    requires InBounds(a, |xs|) && InBounds(b, |xs|)
    ensures multiset(Gather(xs, a)) == multiset(Gather(xs, b))
  {
    if a == [] {
      assert |b| == |multiset(b)| == 0;
    } else {
      var k := IndexIn(b, a[0]);
      var a', b' := a[1..], b[..k] + b[k + 1..];
      MultisetTail(a, b, k);
      GatherRemoveOne(xs, b, k);
      InBoundsSlice(a, 1, |a|, |xs|);
      assert a[1..|a|] == a';
      GatherMultiset(xs, a', b');
      assert Gather(xs, a) == [xs[a[0]]] + Gather(xs, a');
    }
  }

  lemma {:induction false} GatherIndex<T>(xs: seq<T>, idx: seq<nat>)
    requires InBounds(idx, |xs|)
    ensures forall k :: 0 <= k < |idx| ==> Gather(xs, idx)[k] == xs[idx[k]]
  {
    if idx != [] {
      InBoundsSlice(idx, 1, |idx|, |xs|);
      assert idx[1..|idx|] == idx[1..];
      GatherIndex(xs, idx[1..]);
    }
  }

  lemma PermutationInBounds(perm: seq<nat>, n: nat)
    requires IsPermutation(perm, n)
    ensures |perm| == n && InBounds(perm, n)
  {
    assert |perm| == |multiset(perm)| == |multiset(Range(n))| == n;
    forall k | 0 <= k < |perm| ensures perm[k] < n {
      assert perm[k] in multiset(Range(n));
    }
  }

  /** Selecting every position in order gives the sequence back. */
  lemma GatherRange<T>(xs: seq<T>)
    ensures InBounds(Range(|xs|), |xs|)
    ensures Gather(xs, Range(|xs|)) == xs
  {
    var r := Range(|xs|);
    GatherIndex(xs, r);
    forall k | 0 <= k < |xs| ensures Gather(xs, r)[k] == xs[k] {
      assert r[k] == k;
    }
  }

  /** Reordering a frame by a permutation neither loses nor duplicates a row. */
  lemma PermutedMultiset<T>(xs: seq<T>, perm: seq<nat>)
    requires IsPermutation(perm, |xs|)
    ensures InBounds(perm, |xs|)
    ensures multiset(Gather(xs, perm)) == multiset(xs)
  {
    PermutationInBounds(perm, |xs|);
    GatherRange(xs);
    GatherMultiset(xs, perm, Range(|xs|));
  }

  /** Removing a column and selecting rows commute. */
  lemma StripGather(rows: seq<Row>, idx: seq<nat>, c: string)
    requires InBounds(idx, |rows|)
    ensures StripRows(Gather(rows, idx), c) == Gather(StripRows(rows, c), idx)
  {
    GatherIndex(rows, idx);
    GatherIndex(StripRows(rows, c), idx);
  }

  /** The rows whose column c holds v, in their original order. */
  function RowsWhere(rows: seq<Row>, c: string, v: Value): (r: seq<Row>)
    requires forall i :: 0 <= i < |rows| ==> c in rows[i]
    ensures |r| <= |rows|
  {
    if rows == [] then []
    else (if rows[0][c] == v then [rows[0]] else []) + RowsWhere(rows[1..], c, v)
  }

  /** A row is kept by RowsWhere exactly when it is one of the input rows and
      its column c holds v. */
  lemma {:induction false} RowsWhereMembers(rows: seq<Row>, c: string, v: Value)
    requires forall i :: 0 <= i < |rows| ==> c in rows[i]
    ensures forall r :: r in RowsWhere(rows, c, v) <==> r in rows && r[c] == v
  {
    if rows != [] {
      RowsWhereMembers(rows[1..], c, v);
      assert rows == [rows[0]] + rows[1..];
    }
  }

  /** Fold k of `split_dataset_ttv`: the rows labelled k, or None when there are none. */
  function LabelFold(t: Table, c: string, k: int): Option<Table>
    requires WellFormed(t) && c in t.columns
  {
    var kept := RowsWhere(t.rows, c, Int(k));
    if kept == [] then None else Some(Table(t.columns, kept))
  }

  /** `split_dataset_ttv(df, c)`: the rows labelled 0, 1 and 2 in column c. */
  function SplitDatasetTtv(t: Table, c: string): Folds
    requires WellFormed(t) && c in t.columns
  {
    Folds(LabelFold(t, c, 0), LabelFold(t, c, 1), LabelFold(t, c, 2))
  }

  /** order lists positions so that their keys never decrease. */
  ghost predicate SortedBy(keys: seq<int>, order: seq<nat>)
    requires InBounds(order, |keys|)
  {
    forall i, j :: 0 <= i < j < |order| ==> keys[order[i]] <= keys[order[j]]
  }

  /** Places position x after every listed position whose key is not larger. */
  function InsertByKey(keys: seq<int>, x: nat, order: seq<nat>): (r: seq<nat>)
    requires x < |keys| && InBounds(order, |keys|)
    ensures multiset(r) == multiset(order) + multiset{x}
    ensures InBounds(r, |keys|)
  {
    if order == [] then [x]
    else if keys[order[0]] <= keys[x] then
      assert order == [order[0]] + order[1..];
      [order[0]] + InsertByKey(keys, x, order[1..])
    else [x] + order
  }

  /** Every position in the insertion's result is x or was already listed. */
  lemma {:induction false} InsertMembers(keys: seq<int>, x: nat, order: seq<nat>)
    requires x < |keys| && InBounds(order, |keys|)
    ensures forall y :: y in InsertByKey(keys, x, order) ==> y == x || y in order
  {
    if order != [] && keys[order[0]] <= keys[x] {
      InsertMembers(keys, x, order[1..]);
    }
  }

  lemma {:induction false} InsertSorted(keys: seq<int>, x: nat, order: seq<nat>)
    requires x < |keys| && InBounds(order, |keys|) && SortedBy(keys, order)
    ensures SortedBy(keys, InsertByKey(keys, x, order))
  {
    var r := InsertByKey(keys, x, order);
    if order == [] {
    } else if keys[order[0]] <= keys[x] {
      var tail := InsertByKey(keys, x, order[1..]);
      InsertSorted(keys, x, order[1..]);
      InsertMembers(keys, x, order[1..]);
      assert r == [order[0]] + tail;
      forall j | 0 <= j < |tail| ensures keys[order[0]] <= keys[tail[j]] {
        var y := tail[j];
        assert y in tail;
        if y != x {
          var m :| 0 <= m < |order[1..]| && order[1..][m] == y;
          assert order[m + 1] == y;
        }
      }
      forall i, j | 0 <= i < j < |r| ensures keys[r[i]] <= keys[r[j]] {
        assert r[j] == tail[j - 1];
        if i > 0 {
          assert r[i] == tail[i - 1];
        }
      }
    } else {
      assert r == [x] + order;
      forall i, j | 0 <= i < j < |r| ensures keys[r[i]] <= keys[r[j]] {
        assert r[j] == order[j - 1];
        if i > 0 {
          assert r[i] == order[i - 1];
        } else if j > 1 {
          assert keys[order[0]] <= keys[order[j - 1]];
        }
      }
    }
  }

  /** The first m positions, each inserted by key in turn. */
  function SortPrefix(keys: seq<int>, m: nat): (order: seq<nat>)
    requires m <= |keys|
    ensures InBounds(order, |keys|)
  {
    if m == 0 then []
    else InsertByKey(keys, m - 1, SortPrefix(keys, m - 1))
  }

  /** The first m positions are each listed exactly once. */
  lemma {:induction false} SortPrefixPermutes(keys: seq<int>, m: nat)
    requires m <= |keys|
    ensures multiset(SortPrefix(keys, m)) == multiset(Range(m))
  {
    if m > 0 {
      SortPrefixPermutes(keys, m - 1);
      assert Range(m) == Range(m - 1) + [m - 1];
    }
  }

  /** Inserting one position at a time leaves the first m positions ordered
      by ascending key. */
  lemma {:induction false} SortPrefixSorted(keys: seq<int>, m: nat)
    requires m <= |keys|
    ensures SortedBy(keys, SortPrefix(keys, m))
  {
    if m > 0 {
      var prefix := SortPrefix(keys, m - 1);
      SortPrefixSorted(keys, m - 1);
      InsertSorted(keys, m - 1, prefix);
    }
  }

  /** The row order `sort_values` produces for integer keys: a permutation of
      the positions under which the keys never decrease. Ties keep their
      original order here. */
  function SortValues(keys: seq<int>): (order: seq<nat>)
    ensures IsPermutation(order, |keys|)
    ensures InBounds(order, |keys|) && SortedBy(keys, order)
  {
    SortPrefixSorted(keys, |keys|);
    SortPrefixPermutes(keys, |keys|);
    SortPrefix(keys, |keys|)
  }

  /** Row i of the sorted rows is the row at position order[i]. */
  lemma SortedGather<T>(xs: seq<T>, keys: seq<int>)
    requires |keys| == |xs|
    ensures var order := SortValues(keys);
      && InBounds(order, |xs|) && |Gather(xs, order)| == |xs|
      && (forall i :: 0 <= i < |xs| ==> Gather(xs, order)[i] == xs[order[i]])
  {
    var order := SortValues(keys);
    PermutationInBounds(order, |keys|);
    GatherIndex(xs, order);
  }

  /** The caller's frame, which `df[c] = ...` changes in place. */
  class DataFrame {
    var columns: set<string>
    var rows: seq<Row>

    function Snapshot(): Table
      reads this
    {
      Table(columns, rows)
    }

    ghost predicate Valid()
      reads this
    {
      WellFormed(Snapshot())
    }

    constructor (t: Table)
      requires WellFormed(t)
      ensures Valid() && Snapshot() == t
    {
      columns := t.columns;
      rows := t.rows;
    }

    /** `df[c] = values`: adds column c, or overwrites it, in place. */
    method SetColumn(c: string, values: seq<Value>)
      requires Valid() && |values| == |rows|
      modifies this
      ensures Valid() && Snapshot() == WithColumn(old(Snapshot()), c, values)
    {
      var updated := WithColumn(Snapshot(), c, values);
      columns, rows := updated.columns, updated.rows;
    }
  }
}
