/** `_split_on_series` and `FixedSplitter.split` (ludwig/data/split.py): the
    labels are written into the caller's frame as the scratch column, the
    frame is filtered on labels 0, 1 and 2, and the scratch column is dropped
    from each fold. */
module SeriesSplit {
  import opened Wrappers
  import opened Frames
  import opened Splitters

  /** The rows labelled k, with the scratch column removed, in their
      original order. */
  function Select(rows: seq<Row>, labels: seq<Value>, k: int): (r: seq<Row>)
    requires |labels| == |rows|
    ensures |r| <= |rows|
    ensures forall i :: 0 <= i < |r| ==> TmpSplitCol !in r[i]
  {
    if rows == [] then []
    else (if labels[0] == Int(k) then [rows[0] - {TmpSplitCol}] else []) + Select(rows[1..], labels[1..], k)
  }

  /** Fold k of a frame whose rows carry the given labels: None when no row
      carries k. */
  function FoldOf(t: Table, labels: seq<Value>, k: int): Option<Table>
    requires |labels| == |t.rows|
  {
    var kept := Select(t.rows, labels, k);
    if kept == [] then None else Some(Table(t.columns - {TmpSplitCol}, kept))
  }

  /** What `_split_on_series(df, labels)` returns. */
  function LabelledFolds(t: Table, labels: seq<Value>): Folds
    requires |labels| == |t.rows|
  {
    Folds(FoldOf(t, labels, 0), FoldOf(t, labels, 1), FoldOf(t, labels, 2))
  }

  /** `df.drop(columns=TMP_SPLIT_COL) if df is not None else None`. */
  function DropScratch(f: Option<Table>): Option<Table>
    requires f.Some? ==> TmpSplitCol in f.value.columns
  {
    if f.None? then None else Some(Drop(f.value, TmpSplitCol))
  }

  lemma {:induction false} FilterThenStrip(t: Table, labels: seq<Value>, k: int)
    requires |labels| == |t.rows|
    decreases |t.rows|
    ensures var marked := WithColumn(t, TmpSplitCol, labels);
      StripRows(RowsWhere(marked.rows, TmpSplitCol, Int(k)), TmpSplitCol) == Select(t.rows, labels, k)
  {
    var marked := WithColumn(t, TmpSplitCol, labels);
    if t.rows != [] {
      var rest := Table(t.columns, t.rows[1..]);
      FilterThenStrip(rest, labels[1..], k);
      assert WithColumn(rest, TmpSplitCol, labels[1..]).rows == marked.rows[1..];
      var tail := RowsWhere(marked.rows[1..], TmpSplitCol, Int(k));
      if labels[0] == Int(k) {
        assert RowsWhere(marked.rows, TmpSplitCol, Int(k)) == [marked.rows[0]] + tail;
        assert marked.rows[0] - {TmpSplitCol} == t.rows[0] - {TmpSplitCol};
        assert StripRows([marked.rows[0]] + tail, TmpSplitCol) == [t.rows[0] - {TmpSplitCol}] + StripRows(tail, TmpSplitCol);
      } else {
        assert RowsWhere(marked.rows, TmpSplitCol, Int(k)) == tail;
      }
    }
  }

  /** Filtering the marked frame and dropping the scratch column gives the
      labelled folds. */
  lemma TtvThenDrop(t: Table, labels: seq<Value>)
    requires WellFormed(t) && |labels| == |t.rows|
    ensures var ttv := SplitDatasetTtv(WithColumn(t, TmpSplitCol, labels), TmpSplitCol);
      && DropScratch(ttv.train) == FoldOf(t, labels, 0)
      && DropScratch(ttv.validation) == FoldOf(t, labels, 1)
      && DropScratch(ttv.test) == FoldOf(t, labels, 2)
  {
    var marked := WithColumn(t, TmpSplitCol, labels);
    assert marked.columns - {TmpSplitCol} == t.columns - {TmpSplitCol};
    forall k | 0 <= k < 3
      ensures DropScratch(LabelFold(marked, TmpSplitCol, k)) == FoldOf(t, labels, k)
    {
      FilterThenStrip(t, labels, k);
      var kept := RowsWhere(marked.rows, TmpSplitCol, Int(k));
      assert |StripRows(kept, TmpSplitCol)| == |kept|;
    }
  }

  /** `_split_on_series(df, series)`: the scratch column is added to the
      caller's frame in place and stays there; the returned folds do not
      carry it. */
  method SplitOnSeries(df: DataFrame, series: seq<Value>) returns (folds: Folds)
    requires df.Valid() && |series| == |df.rows|
    modifies df
    ensures df.Valid() && df.Snapshot() == WithColumn(old(df.Snapshot()), TmpSplitCol, series)
    ensures folds == LabelledFolds(old(df.Snapshot()), series)
  {
    ghost var before := df.Snapshot();
    df.SetColumn(TmpSplitCol, series);
    var dfs := SplitDatasetTtv(df.Snapshot(), TmpSplitCol);
    TtvThenDrop(before, series);
    folds := Folds(DropScratch(dfs.train), DropScratch(dfs.validation), DropScratch(dfs.test));
  }

  /** A label that names a fold. */
  predicate IsFoldLabel(v: Value) {
    v == Int(0) || v == Int(1) || v == Int(2)
  }

  /** The rows that carry a fold label, scratch column removed, in order. */
  function Labelled(rows: seq<Row>, labels: seq<Value>): seq<Row>
    requires |labels| == |rows|
  {
    if rows == [] then []
    else (if IsFoldLabel(labels[0]) then [rows[0] - {TmpSplitCol}] else []) + Labelled(rows[1..], labels[1..])
  }

  /** Rebuilds a frame's row order from its folds: each label says which
      fold the next row comes from. */
  function Merge(labels: seq<Value>, a: seq<Row>, b: seq<Row>, c: seq<Row>): seq<Row>
    decreases |labels|
  {
    if labels == [] then []
    else if labels[0] == Int(0) && a != [] then [a[0]] + Merge(labels[1..], a[1..], b, c)
    else if labels[0] == Int(1) && b != [] then [b[0]] + Merge(labels[1..], a, b[1..], c)
    else if labels[0] == Int(2) && c != [] then [c[0]] + Merge(labels[1..], a, b, c[1..])
    else Merge(labels[1..], a, b, c)
  }

  /** Round trip: interleaving the three folds by the labels gives back,
      in the original order, every row that carries a fold label. */
  lemma {:induction false} MergeSelect(rows: seq<Row>, labels: seq<Value>)
    requires |labels| == |rows|
    ensures Merge(labels, Select(rows, labels, 0), Select(rows, labels, 1), Select(rows, labels, 2))
            == Labelled(rows, labels)
  {
    if rows != [] {
      MergeSelect(rows[1..], labels[1..]);
      var head := rows[0] - {TmpSplitCol};
      var a, b, c := Select(rows, labels, 0), Select(rows, labels, 1), Select(rows, labels, 2);
      var a', b', c' := Select(rows[1..], labels[1..], 0), Select(rows[1..], labels[1..], 1), Select(rows[1..], labels[1..], 2);
      if labels[0] == Int(0) {
        assert a == [head] + a' && b == b' && c == c';
        assert a[0] == head && a[1..] == a';
      } else if labels[0] == Int(1) {
        assert a == a' && b == [head] + b' && c == c';
        assert b[0] == head && b[1..] == b';
      } else if labels[0] == Int(2) {
        assert a == a' && b == b' && c == [head] + c';
        assert c[0] == head && c[1..] == c';
      } else {
        assert a == a' && b == b' && c == c';
      }
    }
  }

  /** When every label names a fold, no row is lost. */
  lemma {:induction false} LabelledAll(rows: seq<Row>, labels: seq<Value>)
    requires |labels| == |rows|
    requires forall p :: 0 <= p < |labels| ==> IsFoldLabel(labels[p])
    ensures Labelled(rows, labels) == StripRows(rows, TmpSplitCol)
  {
    if rows != [] {
      LabelledAll(rows[1..], labels[1..]);
      assert StripRows(rows, TmpSplitCol) == [rows[0] - {TmpSplitCol}] + StripRows(rows[1..], TmpSplitCol);
    }
  }

  /** The three folds together hold as many rows as carry a fold label. */
  lemma {:induction false} SelectSizes(rows: seq<Row>, labels: seq<Value>)
    requires |labels| == |rows|
    ensures |Select(rows, labels, 0)| + |Select(rows, labels, 1)| + |Select(rows, labels, 2)|
            == |Labelled(rows, labels)|
  {
    if rows != [] {
      SelectSizes(rows[1..], labels[1..]);
    }
  }

  /** A row is in fold k exactly when some input row labelled k is it,
      with the scratch column removed. */
  lemma {:induction false} SelectMembers(rows: seq<Row>, labels: seq<Value>, k: int, x: Row)
    requires |labels| == |rows|
    ensures x in Select(rows, labels, k) <==>
      exists p :: 0 <= p < |rows| && labels[p] == Int(k) && x == rows[p] - {TmpSplitCol}
  {
    if rows != [] {
      SelectMembers(rows[1..], labels[1..], k, x);
      if x in Select(rows[1..], labels[1..], k) {
        var p :| 0 <= p < |rows[1..]| && labels[1..][p] == Int(k) && x == rows[1..][p] - {TmpSplitCol};
        assert labels[p + 1] == Int(k) && x == rows[p + 1] - {TmpSplitCol};
      }
      if exists p :: 0 <= p < |rows| && labels[p] == Int(k) && x == rows[p] - {TmpSplitCol} {
        var p :| 0 <= p < |rows| && labels[p] == Int(k) && x == rows[p] - {TmpSplitCol};
        if p > 0 {
          assert labels[1..][p - 1] == Int(k) && x == rows[1..][p - 1] - {TmpSplitCol};
        }
      }
    }
  }

  /** Fold k is None exactly when no row carries label k. */
  lemma FoldOfNone(t: Table, labels: seq<Value>, k: int)
    requires |labels| == |t.rows|
    ensures FoldOf(t, labels, k).None? <==> forall p :: 0 <= p < |labels| ==> labels[p] != Int(k)
  {
    var kept := Select(t.rows, labels, k);
    if kept != [] {
      SelectMembers(t.rows, labels, k, kept[0]);
    } else {
      forall p | 0 <= p < |labels| ensures labels[p] != Int(k) {
        SelectMembers(t.rows, labels, k, t.rows[p] - {TmpSplitCol});
      }
    }
  }

  /** A fold that, when present, has neither the scratch column nor a row
      carrying it. */
  predicate Clean(g: Option<Table>) {
    g.Some? ==> TmpSplitCol !in g.value.columns && forall i :: 0 <= i < |g.value.rows| ==> TmpSplitCol !in g.value.rows[i]
  }

  /** The labelled folds: fold k is None exactly when no row is labelled k,
      and no fold carries the scratch column. */
  lemma LabelledFoldsMeaning(t: Table, labels: seq<Value>)
    requires |labels| == |t.rows|
    ensures var f := LabelledFolds(t, labels);
      && (f.train.None? <==> forall p :: 0 <= p < |labels| ==> labels[p] != Int(0))
      && (f.validation.None? <==> forall p :: 0 <= p < |labels| ==> labels[p] != Int(1))
      && (f.test.None? <==> forall p :: 0 <= p < |labels| ==> labels[p] != Int(2))
      && Clean(f.train) && Clean(f.validation) && Clean(f.test)
  {
    FoldOfNone(t, labels, 0);
    FoldOfNone(t, labels, 1);
    FoldOfNone(t, labels, 2);
  }

  /** The labelled folds interleave back into the labelled rows, and their
      sizes add up to the number of labelled rows. */
  lemma LabelledFoldsMerge(t: Table, labels: seq<Value>)
    requires |labels| == |t.rows|
    ensures var f := LabelledFolds(t, labels);
      && Merge(labels, FoldRows(f.train), FoldRows(f.validation), FoldRows(f.test)) == Labelled(t.rows, labels)
      && |FoldRows(f.train)| + |FoldRows(f.validation)| + |FoldRows(f.test)| == |Labelled(t.rows, labels)|
  {
    MergeSelect(t.rows, labels);
    SelectSizes(t.rows, labels);
  }

  /** `FixedSplitter.split`: a missing column raises KeyError before the
      frame is touched; otherwise the column's values are the labels. */
  function FixedOutcome(column: string, t: Table): (r: Outcome)
    requires WellFormed(t)
    ensures r.Raised? <==> column !in t.columns
    ensures r.Raised? ==> r.error == KeyError(column)
    ensures !r.Delegated?
  {
    if column !in t.columns then Raised(KeyError(column))
    else Split(LabelledFolds(t, Column(t, column)))
  }

  /** The caller's frame after `FixedSplitter.split`. */
  function FixedState(column: string, t: Table): Table
    requires WellFormed(t)
  {
    if column !in t.columns then t
    else WithColumn(t, TmpSplitCol, Column(t, column))
  }

  method FixedSplit(column: string, df: DataFrame) returns (out: Outcome)
    requires df.Valid()
    modifies df
    ensures df.Valid()
    ensures out == FixedOutcome(column, old(df.Snapshot()))
    ensures df.Snapshot() == FixedState(column, old(df.Snapshot()))
  {
    if column !in df.columns {
      return Raised(KeyError(column));
    }
    var folds := SplitOnSeries(df, Column(df.Snapshot(), column));
    out := Split(folds);
  }

  lemma {:induction false} SelectByColumn(rows: seq<Row>, column: string, labels: seq<Value>, k: int)
    requires |labels| == |rows|
    requires forall p :: 0 <= p < |rows| ==> column in rows[p] && labels[p] == rows[p][column]
    ensures Select(rows, labels, k) == StripRows(RowsWhere(rows, column, Int(k)), TmpSplitCol)
  {
    if rows != [] {
      SelectByColumn(rows[1..], column, labels[1..], k);
      var tail := RowsWhere(rows[1..], column, Int(k));
      if rows[0][column] == Int(k) {
        assert RowsWhere(rows, column, Int(k)) == [rows[0]] + tail;
        assert StripRows([rows[0]] + tail, TmpSplitCol) == [rows[0] - {TmpSplitCol}] + StripRows(tail, TmpSplitCol);
      } else {
        assert RowsWhere(rows, column, Int(k)) == tail;
      }
    }
  }

  /** Fixed split: fold k holds exactly the input rows whose column equals k,
      in their original order and without the scratch column; when every
      value is 0, 1 or 2, the folds interleave back into the whole frame. */
  lemma FixedFoldsMeaning(column: string, t: Table)
    requires WellFormed(t) && column in t.columns
    ensures var out := FixedOutcome(column, t);
      && out.Split?
      && FoldRows(out.folds.train) == StripRows(RowsWhere(t.rows, column, Int(0)), TmpSplitCol)
      && FoldRows(out.folds.validation) == StripRows(RowsWhere(t.rows, column, Int(1)), TmpSplitCol)
      && FoldRows(out.folds.test) == StripRows(RowsWhere(t.rows, column, Int(2)), TmpSplitCol)
    ensures (forall p :: 0 <= p < |t.rows| ==> IsFoldLabel(t.rows[p][column])) ==>
      var f := FixedOutcome(column, t).folds;
      Merge(Column(t, column), FoldRows(f.train), FoldRows(f.validation), FoldRows(f.test))
        == StripRows(t.rows, TmpSplitCol)
  {
    var labels := Column(t, column);
    SelectByColumn(t.rows, column, labels, 0);
    SelectByColumn(t.rows, column, labels, 1);
    SelectByColumn(t.rows, column, labels, 2);
    MergeSelect(t.rows, labels);
    if forall p :: 0 <= p < |t.rows| ==> IsFoldLabel(t.rows[p][column]) {
      LabelledAll(t.rows, labels);
    }
  }

  /** The fold the test in tests/ludwig/data/test_split.py assigns to a
      value of column "C": below 60 train, below 80 validation, else test. */
  function ThresholdFold(v: int): (k: FoldIndex)
    ensures k == 0 <==> v < 60
    ensures k == 1 <==> 60 <= v < 80
  {
    if v < 60 then 0 else if v < 80 then 1 else 2
  }

  /** Row r's split column holds the threshold fold of its "C" value. */
  predicate ThresholdMarked(r: Row, column: string) {
    column in r && "C" in r && r["C"].Int? && r[column] == Int(ThresholdFold(r["C"].i))
  }

  /** Row r's "C" value falls in fold k. */
  predicate InThresholdFold(r: Row, k: int) {
    "C" in r && r["C"].Int? && ThresholdFold(r["C"].i) == k
  }

  /** Every row kept for fold k has a "C" value whose threshold fold is k. */
  lemma {:induction false} KeptRowsThreshold(rows: seq<Row>, column: string, k: int)
    requires forall p :: 0 <= p < |rows| ==> column in rows[p] && ThresholdMarked(rows[p], column)
    ensures forall i :: 0 <= i < |RowsWhere(rows, column, Int(k))| ==>
      InThresholdFold(RowsWhere(rows, column, Int(k))[i], k)
  {
    if rows != [] {
      KeptRowsThreshold(rows[1..], column, k);
      var kept: seq<Row>, tail: seq<Row> := RowsWhere(rows, column, Int(k)), RowsWhere(rows[1..], column, Int(k));
      if rows[0][column] == Int(k) {
        assert kept == [rows[0]] + tail;
        assert ThresholdMarked(rows[0], column);
        forall i | 0 <= i < |kept|
          ensures InThresholdFold(kept[i], k)
        {
          if i > 0 {
            assert kept[i] == tail[i - 1];
          }
        }
      } else {
        assert kept == tail;
      }
    }
  }

  /** The fixed-split test: when the split column holds the threshold fold of
      an integer column "C", every train row has C < 60, every validation row
      60 <= C < 80 and every test row C >= 80. */
  lemma FixedSplitThresholds(column: string, t: Table)
    requires WellFormed(t) && column in t.columns && "C" in t.columns && "C" != TmpSplitCol
    requires forall p :: 0 <= p < |t.rows| ==>
      t.rows[p]["C"].Int? && t.rows[p][column] == Int(ThresholdFold(t.rows[p]["C"].i))
    ensures var f := FixedOutcome(column, t).folds;
      && (forall i :: 0 <= i < |FoldRows(f.train)| ==>
            "C" in FoldRows(f.train)[i] && FoldRows(f.train)[i]["C"].Int? && FoldRows(f.train)[i]["C"].i < 60)
      && (forall i :: 0 <= i < |FoldRows(f.validation)| ==>
            "C" in FoldRows(f.validation)[i] && FoldRows(f.validation)[i]["C"].Int? && 60 <= FoldRows(f.validation)[i]["C"].i < 80)
      && (forall i :: 0 <= i < |FoldRows(f.test)| ==>
            "C" in FoldRows(f.test)[i] && FoldRows(f.test)[i]["C"].Int? && 80 <= FoldRows(f.test)[i]["C"].i)
  {
    FixedFoldsMeaning(column, t);
    assert forall p :: 0 <= p < |t.rows| ==> column in t.rows[p] && ThresholdMarked(t.rows[p], column);
    KeptRowsThreshold(t.rows, column, 0);
    KeptRowsThreshold(t.rows, column, 1);
    KeptRowsThreshold(t.rows, column, 2);
  }
}
