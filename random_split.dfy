/** `RandomSplitter.split` (ludwig/data/split.py): shuffle the whole frame,
    then cut it at `int(p0 * n)` and `int(p0 * n) + int(p1 * n)`. The shuffle
    `df.sample(frac=1, random_state=seed)` is a parameter: the permutation of
    row positions it produces. */
module RandomSplit {
  import opened Wrappers
  import opened Frames
  import opened Splitters

  /** The frame with its rows in the order the permutation lists them. */
  function Shuffled(t: Table, perm: seq<nat>): (r: Table)
    requires IsPermutation(perm, |t.rows|)
    ensures r.columns == t.columns && |r.rows| == |t.rows|
  {
    PermutationInBounds(perm, |t.rows|);
    Table(t.columns, Gather(t.rows, perm))
  }

  /** What `RandomSplitter(probabilities).split(df, backend, seed)` ends in:
      a partitioned engine's own `random_split`, or the cut shuffled frame. */
  function RandomSplitOutcome(probs: Probs, t: Table, engine: Engine, seed: int, perm: seq<nat>): (r: Outcome)
    requires IsPermutation(perm, |t.rows|)
    ensures !r.Raised?
    ensures r.Delegated? <==> engine.partitioned
  {
    if engine.partitioned then Delegated(RandomSplitCall(t, probs, seed))
    else Split(CutFolds(Shuffled(t, perm), probs))
  }

  /** Random split: a partitioned engine receives the frame, the proportions
      and the seed unchanged. On an unpartitioned frame there are three folds, all present and
      with the input's columns, which laid end to end are the shuffled frame,
      so together they hold every input row exactly once. When p0 + p1 <= 1
      train holds int(p0 * n) rows, validation int(p1 * n) and test the rest. */
  lemma RandomSplitMeaning(probs: Probs, t: Table, seed: int, perm: seq<nat>)
    requires IsPermutation(perm, |t.rows|)
    ensures RandomSplitOutcome(probs, t, Engine(true), seed, perm) == Delegated(RandomSplitCall(t, probs, seed))
    ensures var out := RandomSplitOutcome(probs, t, Engine(false), seed, perm);
      && out.Split?
      && out.folds.train.Some? && out.folds.validation.Some? && out.folds.test.Some?
      && out.folds.train.value.columns == t.columns
      && out.folds.validation.value.columns == t.columns
      && out.folds.test.value.columns == t.columns
      && AllRows(out.folds) == Shuffled(t, perm).rows
      && multiset(AllRows(out.folds)) == multiset(t.rows)
    ensures probs.train + probs.validation <= 1.0 ==>
      var f := RandomSplitOutcome(probs, t, Engine(false), seed, perm).folds;
      && |f.train.value.rows| == Portion(probs.train, |t.rows|)
      && |f.validation.value.rows| == Portion(probs.validation, |t.rows|)
      && |f.test.value.rows| == |t.rows| - Portion(probs.train, |t.rows|) - Portion(probs.validation, |t.rows|)
  {
    PermutedMultiset(t.rows, perm);
    if probs.train + probs.validation <= 1.0 {
      CutSizes(Shuffled(t, perm).rows, probs);
    }
  }

  /** The test in tests/ludwig/data/test_split.py: with the default
      proportions (0.7, 0.1, 0.2) and 100 rows, the folds hold 70, 10 and 20
      rows. */
  lemma DefaultProportionsOnHundredRows(t: Table, seed: int, perm: seq<nat>)
    requires |t.rows| == 100 && IsPermutation(perm, |t.rows|)
    ensures var f := RandomSplitOutcome(DefaultProbabilities, t, Engine(false), seed, perm).folds;
      |f.train.value.rows| == 70 && |f.validation.value.rows| == 10 && |f.test.value.rows| == 20
  {
    assert Portion(0.7, 100) == 70;
    assert Portion(0.1, 100) == 10;
    RandomSplitMeaning(DefaultProbabilities, t, seed, perm);
  }

  /** A fold whose proportion is zero, so that `has_split` is false, is
      empty, for train and validation. */
  lemma NoSplitMeansEmptyFold(probs: Probs, t: Table, seed: int, perm: seq<nat>)
    requires IsPermutation(perm, |t.rows|)
    ensures var f := RandomSplitOutcome(probs, t, Engine(false), seed, perm).folds;
      && (!RandomSplitter(probs).HasSplit(0) ==> f.train.value.rows == [])
      && (!RandomSplitter(probs).HasSplit(1) ==> f.validation.value.rows == [])
  {
    var n := |t.rows|;
    if !RandomSplitter(probs).HasSplit(0) {
      assert Portion(probs.train, n) == 0;
    }
    if !RandomSplitter(probs).HasSplit(1) {
      assert Portion(probs.validation, n) == 0;
    }
  }

  /** The test fold is not covered by that: it takes the remainder. With
      proportions (0.5, 0.5, 0.0) and 3 rows, `has_split(2)` is false yet
      the test fold holds one row. */
  lemma TestFoldTakesRemainder(t: Table, seed: int, perm: seq<nat>)
    requires |t.rows| == 3 && IsPermutation(perm, |t.rows|)
    ensures var probs := Probs(0.5, 0.5, 0.0);
      && !RandomSplitter(probs).HasSplit(2)
      && |RandomSplitOutcome(probs, t, Engine(false), seed, perm).folds.test.value.rows| == 1
  {
    var probs := Probs(0.5, 0.5, 0.0);
    assert Portion(0.5, 3) == 1;
    RandomSplitMeaning(probs, t, seed, perm);
  }
}
