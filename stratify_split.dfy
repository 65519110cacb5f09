/** `StratifySplitter.split` (ludwig/data/split.py): a label array of zeros;
    for each distinct value of the column, in order of first appearance, one
    `random.choice(3, count, p=probabilities)` call draws a fold for each row
    holding that value, written at those rows' positions; the labels then go
    through `_split_on_series`.

    The seeded random generator is a parameter: `draw(j, k)` is the k-th fold
    drawn by the call for the j-th distinct value. */
module StratifySplit {
  import opened Wrappers
  import opened Frames
  import opened Splitters
  import opened SeriesSplit

  /** The distinct values among the first n, in order of first appearance. */
  function UniqueUpTo(vals: seq<Value>, n: nat): seq<Value>
    requires n <= |vals|
  {
    if n == 0 then []
    else
      var seen := UniqueUpTo(vals, n - 1);
      if vals[n - 1] in seen then seen else seen + [vals[n - 1]]
  }

  /** `Series.unique()`. */
  function Unique(vals: seq<Value>): seq<Value> {
    UniqueUpTo(vals, |vals|)
  }

  /** `unique()` lists every value of the column. */
  lemma {:induction false} UniqueCovers(vals: seq<Value>, n: nat)
    requires n <= |vals|
    ensures forall p :: 0 <= p < n ==> vals[p] in UniqueUpTo(vals, n)
  {
    if n > 0 {
      UniqueCovers(vals, n - 1);
    }
  }

  /** `unique()` lists no value twice. */
  lemma {:induction false} UniqueDistinct(vals: seq<Value>, n: nat)
    requires n <= |vals|
    ensures forall i, j :: 0 <= i < j < |UniqueUpTo(vals, n)| ==> UniqueUpTo(vals, n)[i] != UniqueUpTo(vals, n)[j]
  {
    if n > 0 {
      UniqueDistinct(vals, n - 1);
    }
  }

  /** The positions among the first n that hold u, in increasing order. */
  function PositionsUpTo(vals: seq<Value>, u: Value, n: nat): (r: seq<nat>)
    requires n <= |vals|
    ensures forall k :: 0 <= k < |r| ==> r[k] < n
  {
    if n == 0 then []
    else PositionsUpTo(vals, u, n - 1) + (if vals[n - 1] == u then [n - 1] else [])
  }

  /** `df.index[df[column] == u].tolist()` on a default index. */
  function Positions(vals: seq<Value>, u: Value): (r: seq<nat>)
    ensures InBounds(r, |vals|)
  {
    PositionsUpTo(vals, u, |vals|)
  }

  /** Every listed position holds u. */
  lemma {:induction false} PositionsHold(vals: seq<Value>, u: Value, n: nat)
    requires n <= |vals|
    ensures forall k :: 0 <= k < |PositionsUpTo(vals, u, n)| ==> vals[PositionsUpTo(vals, u, n)[k]] == u
  {
    if n > 0 {
      PositionsHold(vals, u, n - 1);
    }
  }

  /** The positions are listed in increasing order. */
  lemma {:induction false} PositionsIncrease(vals: seq<Value>, u: Value, n: nat)
    requires n <= |vals|
    ensures forall a, b :: 0 <= a < b < |PositionsUpTo(vals, u, n)| ==> PositionsUpTo(vals, u, n)[a] < PositionsUpTo(vals, u, n)[b]
  {
    if n > 0 {
      PositionsIncrease(vals, u, n - 1);
    }
  }

  /** Every position holding u is listed. */
  lemma {:induction false} PositionsCover(vals: seq<Value>, u: Value, n: nat)
    requires n <= |vals|
    ensures forall p :: 0 <= p < n && vals[p] == u ==> p in PositionsUpTo(vals, u, n)
  {
    if n > 0 {
      PositionsCover(vals, u, n - 1);
    }
  }

  /** Positions of different values never coincide. */
  lemma PositionsApart(vals: seq<Value>, u: Value, v: Value, k: nat)
    requires u != v && k < |Positions(vals, u)|
    ensures Positions(vals, u)[k] !in Positions(vals, v)
  {
    PositionsHold(vals, u, |vals|);
    PositionsHold(vals, v, |vals|);
  }

  /** Every label names a fold. */
  predicate AllFolds(labels: seq<int>) {
    forall i :: 0 <= i < |labels| ==> 0 <= labels[i] < 3
  }

  /** Positions listed in strictly increasing order. */
  predicate Increasing(pos: seq<nat>) {
    forall a, b :: 0 <= a < b < |pos| ==> pos[a] < pos[b]
  }

  /** The label array after writing block[k] at position pos[k] for each k
      (`split[idx_list] = val_list`). */
  function Scatter(labels: seq<int>, pos: seq<nat>, block: seq<int>): (r: seq<int>)
    requires |pos| == |block| && InBounds(pos, |labels|)
    ensures |r| == |labels|
  {
    if pos == [] then labels
    else
      var m := |pos| - 1;
      Scatter(labels, pos[..m], block[..m])[pos[m] := block[m]]
  }

  /** Each listed position holds its block entry. */
  lemma {:induction false} ScatterAt(labels: seq<int>, pos: seq<nat>, block: seq<int>)
    requires |pos| == |block| && InBounds(pos, |labels|) && Increasing(pos)
    ensures forall k :: 0 <= k < |pos| ==> Scatter(labels, pos, block)[pos[k]] == block[k]
  {
    if pos != [] {
      var m := |pos| - 1;
      ScatterAt(labels, pos[..m], block[..m]);
      forall k | 0 <= k < m ensures pos[k] != pos[m] {
        assert pos[k] < pos[m];
      }
    }
  }

  /** Every position not listed keeps its old label. */
  lemma {:induction false} ScatterElsewhere(labels: seq<int>, pos: seq<nat>, block: seq<int>)
    requires |pos| == |block| && InBounds(pos, |labels|)
    ensures forall p :: 0 <= p < |labels| && p !in pos ==> Scatter(labels, pos, block)[p] == labels[p]
  {
    if pos != [] {
      var m := |pos| - 1;
      ScatterElsewhere(labels, pos[..m], block[..m]);
      forall p | 0 <= p < |labels| && p !in pos ensures p !in pos[..m] {
        assert pos == pos[..m] + [pos[m]];
      }
    }
  }

  /** Writing folds over folds leaves only folds. */
  lemma {:induction false} ScatterFolds(labels: seq<int>, pos: seq<nat>, block: seq<int>)
    requires |pos| == |block| && InBounds(pos, |labels|)
    requires AllFolds(labels) && AllFolds(block)
    ensures AllFolds(Scatter(labels, pos, block))
  {
    if pos != [] {
      var m := |pos| - 1;
      assert AllFolds(block[..m]);
      ScatterFolds(labels, pos[..m], block[..m]);
    }
  }

  /** `random.choice(3, count)` for the j-th distinct value: one fold per
      row holding it. */
  function Block(vals: seq<Value>, draw: (nat, nat) -> FoldIndex, j: nat): (b: seq<int>)
    requires j < |Unique(vals)|
    ensures |b| == |Positions(vals, Unique(vals)[j])|
    ensures forall k :: 0 <= k < |b| ==> b[k] == draw(j, k)
  {
    seq(|Positions(vals, Unique(vals)[j])|, (k: int) requires 0 <= k => draw(j, k))
  }

  /** The label array once the first j distinct values are handled. */
  function StratifyUpTo(vals: seq<Value>, draw: (nat, nat) -> FoldIndex, j: nat): (r: seq<int>)
    requires j <= |Unique(vals)|
    ensures |r| == |vals|
  {
    if j == 0 then seq(|vals|, _ => 0)
    else
      var u := Unique(vals)[j - 1];
      Scatter(StratifyUpTo(vals, draw, j - 1), Positions(vals, u), Block(vals, draw, j - 1))
  }

  /** Every label is a fold. */
  lemma {:induction false} StratifyUpToFolds(vals: seq<Value>, draw: (nat, nat) -> FoldIndex, j: nat)
    requires j <= |Unique(vals)|
    ensures AllFolds(StratifyUpTo(vals, draw, j))
  {
    if j > 0 {
      var u := Unique(vals)[j - 1];
      StratifyUpToFolds(vals, draw, j - 1);
      ScatterFolds(StratifyUpTo(vals, draw, j - 1), Positions(vals, u), Block(vals, draw, j - 1));
    }
  }

  /** After j distinct values, the rows holding each of them carry that
      value's draws. */
  lemma {:induction false} StratifyUpToMeaning(vals: seq<Value>, draw: (nat, nat) -> FoldIndex, j: nat)
    requires j <= |Unique(vals)|
    ensures forall i, k :: 0 <= i < j && 0 <= k < |Positions(vals, Unique(vals)[i])| ==>
      StratifyUpTo(vals, draw, j)[Positions(vals, Unique(vals)[i])[k]] == draw(i, k)
  {
    if j > 0 {
      var us := Unique(vals);
      var pos := Positions(vals, us[j - 1]);
      var block := Block(vals, draw, j - 1);
      var before := StratifyUpTo(vals, draw, j - 1);
      StratifyUpToMeaning(vals, draw, j - 1);
      UniqueDistinct(vals, |vals|);
      PositionsIncrease(vals, us[j - 1], |vals|);
      assert StratifyUpTo(vals, draw, j) == Scatter(before, pos, block);
      ScatterAt(before, pos, block);
      ScatterElsewhere(before, pos, block);
      forall i, k | 0 <= i < j && 0 <= k < |Positions(vals, us[i])|
        ensures StratifyUpTo(vals, draw, j)[Positions(vals, us[i])[k]] == draw(i, k)
      {
        if i < j - 1 {
          PositionsApart(vals, us[i], us[j - 1], k);
        }
      }
    }
  }

  /** The label array the loop over the distinct values builds. */
  function Stratify(vals: seq<Value>, draw: (nat, nat) -> FoldIndex): (r: seq<int>) {
    StratifyUpTo(vals, draw, |Unique(vals)|)
  }

  /** `split[idx_list] = val_list`. */
  method ScatterInto(split: array<int>, idxList: seq<nat>, valList: seq<int>)
    requires |idxList| == |valList| && InBounds(idxList, split.Length)
    modifies split
    ensures split[..] == Scatter(old(split[..]), idxList, valList)
  {
    var k := 0;
    while k < |idxList|
      invariant 0 <= k <= |idxList|
      invariant split[..] == Scatter(old(split[..]), idxList[..k], valList[..k])
    {
      assert idxList[..k + 1][..k] == idxList[..k] && valList[..k + 1][..k] == valList[..k];
      split[idxList[k]] := valList[k];
      k := k + 1;
    }
    assert idxList[..k] == idxList && valList[..k] == valList;
  }

  /** The loop of `StratifySplitter.split` over `df[column].unique()`. */
  method StratifyLabels(vals: seq<Value>, draw: (nat, nat) -> FoldIndex) returns (split: array<int>)
    ensures split[..] == Stratify(vals, draw)
  {
    split := new int[|vals|](_ => 0);
    var uniq := Unique(vals);
    var j := 0;
    while j < |uniq|
      invariant 0 <= j <= |uniq|
      invariant split.Length == |vals|
      invariant split[..] == StratifyUpTo(vals, draw, j)
    {
      var idxList := Positions(vals, uniq[j]);
      var valList := Block(vals, draw, j);
      assert StratifyUpTo(vals, draw, j + 1) == Scatter(StratifyUpTo(vals, draw, j), idxList, valList);
      ScatterInto(split, idxList, valList);
      j := j + 1;
    }
  }

  /** The k-th row (in index order) holding the j-th distinct value gets the
      k-th fold drawn by the j-th call, and every row is such a row: each
      row's value is among the distinct values and the row among that
      value's positions. */
  lemma StratifyMeaning(vals: seq<Value>, draw: (nat, nat) -> FoldIndex)
    ensures var us := Unique(vals);
      forall j, k :: 0 <= j < |us| && 0 <= k < |Positions(vals, us[j])| ==>
        Stratify(vals, draw)[Positions(vals, us[j])[k]] == draw(j, k)
    ensures forall p :: 0 <= p < |vals| ==> vals[p] in Unique(vals) && p in Positions(vals, vals[p])
    ensures AllFolds(Stratify(vals, draw))
  {
    StratifyUpToFolds(vals, draw, |Unique(vals)|);
    StratifyUpToMeaning(vals, draw, |Unique(vals)|);
    UniqueCovers(vals, |vals|);
    forall p | 0 <= p < |vals| ensures p in Positions(vals, vals[p]) {
      PositionsCover(vals, vals[p], |vals|);
    }
  }

  const StratifyPartitionedMessage: string :=
    "Split type \"stratify\" is not supported with a partitioned dataset."

  /** What `StratifySplitter(column, probabilities).split` ends in. A
      partitioned engine raises before anything else; a missing column
      raises KeyError; otherwise the drawn labels split the frame. */
  function StratifyOutcome(column: string, engine: Engine, t: Table, draw: (nat, nat) -> FoldIndex): (r: Outcome)
    requires WellFormed(t)
    ensures r.Raised? <==> engine.partitioned || column !in t.columns
    ensures !r.Delegated?
  {
    if engine.partitioned then Raised(ValueError(StratifyPartitionedMessage))
    else if column !in t.columns then Raised(KeyError(column))
    else Split(LabelledFolds(t, IntCells(Stratify(Column(t, column), draw))))
  }

  /** The caller's frame afterwards: it keeps the scratch column. */
  function StratifyState(column: string, engine: Engine, t: Table, draw: (nat, nat) -> FoldIndex): Table
    requires WellFormed(t)
  {
    if engine.partitioned || column !in t.columns then t
    else WithColumn(t, TmpSplitCol, IntCells(Stratify(Column(t, column), draw)))
  }

  method StratifySplit(column: string, engine: Engine, df: DataFrame, draw: (nat, nat) -> FoldIndex) returns (out: Outcome)
    requires df.Valid()
    modifies df
    ensures df.Valid()
    ensures out == StratifyOutcome(column, engine, old(df.Snapshot()), draw)
    ensures df.Snapshot() == StratifyState(column, engine, old(df.Snapshot()), draw)
  {
    if engine.partitioned {
      return Raised(ValueError(StratifyPartitionedMessage));
    }
    if column !in df.columns {
      return Raised(KeyError(column));
    }
    var split := StratifyLabels(Column(df.Snapshot(), column), draw);
    var folds := SplitOnSeries(df, IntCells(split[..]));
    out := Split(folds);
  }

  /** Stratified split on an unpartitioned frame: every row lands in exactly one fold, the folds interleave back into
      the whole frame in its original order, and fold k holds exactly the
      rows whose drawn label is k. */
  lemma StratifyFoldsMeaning(column: string, t: Table, draw: (nat, nat) -> FoldIndex)
    requires WellFormed(t) && column in t.columns
    ensures var labels := IntCells(Stratify(Column(t, column), draw));
      var out := StratifyOutcome(column, Engine(false), t, draw);
      && out == Split(LabelledFolds(t, labels))
      && Merge(labels, FoldRows(out.folds.train), FoldRows(out.folds.validation), FoldRows(out.folds.test))
         == StripRows(t.rows, TmpSplitCol)
      && |FoldRows(out.folds.train)| + |FoldRows(out.folds.validation)| + |FoldRows(out.folds.test)| == |t.rows|
  {
    var vals := Column(t, column);
    var labels := IntCells(Stratify(vals, draw));
    StratifyUpToFolds(vals, draw, |Unique(vals)|);
    assert forall p :: 0 <= p < |labels| ==> IsFoldLabel(labels[p]);
    LabelledFoldsMerge(t, labels);
    LabelledAll(t.rows, labels);
  }

  /** A fold of the folds, by index. */
  function FoldAt(f: Folds, i: FoldIndex): Option<Table> {
    if i == 0 then f.train else if i == 1 then f.validation else f.test
  }

  /** A label the choices never yield appears nowhere in the label array. */
  lemma StratifyAvoids(vals: seq<Value>, draw: (nat, nat) -> FoldIndex, i: FoldIndex)
    requires forall j, k :: draw(j, k) != i
    ensures forall p :: 0 <= p < |vals| ==> Stratify(vals, draw)[p] != i
  {
    var us := Unique(vals);
    StratifyMeaning(vals, draw);
    forall p | 0 <= p < |vals| ensures Stratify(vals, draw)[p] != i {
      var j :| 0 <= j < |us| && us[j] == vals[p];
      var k :| 0 <= k < |Positions(vals, us[j])| && Positions(vals, us[j])[k] == p;
    }
  }

  /** When `random.choice` never yields a fold whose probability is zero, a
      fold for which `has_split` is false comes out None. */
  lemma StratifyNoSplitMeansNone(column: string, probs: Probs, t: Table, draw: (nat, nat) -> FoldIndex, i: FoldIndex)
    requires WellFormed(t) && column in t.columns
    requires forall j, k :: probs.At(draw(j, k)) > 0.0
    requires !StratifySplitter(column, probs).HasSplit(i)
    ensures FoldAt(StratifyOutcome(column, Engine(false), t, draw).folds, i).None?
  {
    var vals := Column(t, column);
    var labels := IntCells(Stratify(vals, draw));
    StratifyAvoids(vals, draw, i);
    assert forall p :: 0 <= p < |labels| ==> labels[p] != Int(i);
    FoldOfNone(t, labels, i);
  }
}
