/** `split_dataset` (ludwig/data/split.py): build the splitter the
    preprocessing parameters name, warn when the frame has a "split" column
    but no split section was given, and run the splitter on the frame. */
module SplitDataset {
  import opened Wrappers
  import opened Frames
  import opened Splitters
  import opened SeriesSplit
  import opened RandomSplit
  import opened StratifySplit
  import opened DatetimeSplit

  /** The global preprocessing parameters, reduced to the `split` section;
      None when the key is absent. */
  datatype PreprocessingParams = PreprocessingParams(split: Option<SplitParams>)

  /** What the splitters take from outside the frame: the shuffle of the
      random splitter, the folds drawn by the stratify splitter's choices,
      and the timestamps `to_datetime` gives values. */
  datatype Sources = Sources(perm: seq<nat>, draw: (nat, nat) -> FoldIndex, parse: Value -> Option<int>)

  /** `splitter.split(df, backend, random_seed)`, dispatched on the splitter. */
  function SplitOutcome(s: Splitter, engine: Engine, t: Table, seed: int, src: Sources): Outcome
    requires WellFormed(t) && IsPermutation(src.perm, |t.rows|)
  {
    match s
    case RandomSplitter(probs) => RandomSplitOutcome(probs, t, engine, seed, src.perm)
    case FixedSplitter(column) => FixedOutcome(column, t)
    case StratifySplitter(column, _) => StratifyOutcome(column, engine, t, src.draw)
    case DatetimeSplitter(column, probs, _, _) => DatetimeOutcome(column, probs, engine, t, src.parse)
  }

  /** The caller's frame after `splitter.split`. */
  function SplitState(s: Splitter, engine: Engine, t: Table, src: Sources): Table
    requires WellFormed(t)
  {
    match s
    case RandomSplitter(_) => t
    case FixedSplitter(column) => FixedState(column, t)
    case StratifySplitter(column, _) => StratifyState(column, engine, t, src.draw)
    case DatetimeSplitter(column, _, _, _) => DatetimeState(column, t, src.parse)
  }

  method SplitWith(s: Splitter, engine: Engine, df: DataFrame, seed: int, src: Sources) returns (out: Outcome)
    requires df.Valid() && IsPermutation(src.perm, |df.rows|)
    modifies df
    ensures df.Valid()
    ensures out == SplitOutcome(s, engine, old(df.Snapshot()), seed, src)
    ensures df.Snapshot() == SplitState(s, engine, old(df.Snapshot()), src)
  {
    match s
    case RandomSplitter(probs) =>
      out := RandomSplitOutcome(probs, df.Snapshot(), engine, seed, src.perm);
    case FixedSplitter(column) =>
      out := FixedSplit(column, df);
    case StratifySplitter(column, _) =>
      out := StratifySplit.StratifySplit(column, engine, df, src.draw);
    case DatetimeSplitter(column, probs, _, _) =>
      out := DatetimeSplit.DatetimeSplit(column, probs, engine, df, src.parse);
  }

  /** The warning condition: no split section, yet a "split" column. */
  predicate Warns(params: PreprocessingParams, t: Table) {
    params.split.None? && SplitCol in t.columns
  }

  /** What the corrected `split_dataset` ends in. */
  function SplitDatasetOutcome(params: PreprocessingParams, engine: Engine, t: Table, seed: int, src: Sources): Outcome
    requires WellFormed(t) && IsPermutation(src.perm, |t.rows|)
  {
    match GetSplitter(params.split.GetOr(EmptySplitParams))
    case Failure(e) => Raised(e)
    case Success(s) => SplitOutcome(s, engine, t, seed, src)
  }

  /** The caller's frame after the corrected `split_dataset`. */
  function SplitDatasetState(params: PreprocessingParams, engine: Engine, t: Table, src: Sources): Table
    requires WellFormed(t)
  {
    match GetSplitter(params.split.GetOr(EmptySplitParams))
    case Failure(_) => t
    case Success(s) => SplitState(s, engine, t, src)
  }

  /** `split_dataset`, with `get_splitter` raising on an unknown type and
      the datetime splitter reading its own column; the warning is returned
      as a flag. */
  method SplitDataset(params: PreprocessingParams, engine: Engine, df: DataFrame, seed: int, src: Sources)
    returns (warned: bool, out: Outcome)
    requires df.Valid() && IsPermutation(src.perm, |df.rows|)
    modifies df
    ensures df.Valid()
    ensures warned == Warns(params, old(df.Snapshot()))
    ensures out == SplitDatasetOutcome(params, engine, old(df.Snapshot()), seed, src)
    ensures df.Snapshot() == SplitDatasetState(params, engine, old(df.Snapshot()), src)
  {
    warned := params.split.None? && SplitCol in df.columns;
    var splitter := GetSplitter(params.split.GetOr(EmptySplitParams));
    if splitter.Failure? {
      return warned, Raised(splitter.error);
    }
    out := SplitWith(splitter.value, engine, df, seed, src);
  }

  /** `split_dataset` as written: `get_splitter` returns the ValueError for
      an unknown type, and calling `.split` on it raises AttributeError; the
      datetime splitter raises AttributeError on `self.col`. */
  function SplitDatasetAsWritten(params: PreprocessingParams, engine: Engine, t: Table, seed: int, src: Sources): Outcome
    requires WellFormed(t) && IsPermutation(src.perm, |t.rows|)
  {
    match GetSplitterAsWritten(params.split.GetOr(EmptySplitParams))
    case ReturnedError(_) => Raised(AttributeError("split"))
    case ConstructorRaised(e) => Raised(e)
    case Built(s) =>
      if s.DatetimeSplitter? then DatetimeAsWrittenOutcome
      else SplitOutcome(s, engine, t, seed, src)
  }

  /** An unknown split type: as written the caller sees AttributeError on
      `split`; as intended, the ValueError naming the type. */
  lemma UnknownTypeFinding(name: string, params: PreprocessingParams, engine: Engine, t: Table, seed: int, src: Sources)
    requires WellFormed(t) && IsPermutation(src.perm, |t.rows|)
    requires params.split.Some? && params.split.value.splitType == Some(name) && Some(name) !in Registry
    ensures SplitDatasetAsWritten(params, engine, t, seed, src) == Raised(AttributeError("split"))
    ensures SplitDatasetOutcome(params, engine, t, seed, src) == Raised(ValueError(InvalidTypeMessage(name)))
    ensures SplitDatasetState(params, engine, t, src) == t
  {
  }

  /** A `datetime` section with a column builds the datetime splitter, in
      both versions of `get_splitter`. */
  lemma DatetimeBuilds(p: SplitParams)
    requires p.splitType == Some("datetime") && p.column.Some?
    ensures var s := DatetimeSplitter(p.column.value, p.probabilities.GetOr(DefaultProbabilities), p.datetimeFormat, p.fillValue.GetOr(""));
      GetSplitterAsWritten(p) == Built(s) && GetSplitter(p) == Success(s)
  {
    assert Registry[p.splitType] == DatetimeKind;
  }

  /** A datetime split whose column is present and parses: the code as
      written raises AttributeError on `col`, the corrected one returns the
      chronological folds. */
  lemma DatetimeFinding(params: PreprocessingParams, t: Table, seed: int, src: Sources)
    requires WellFormed(t) && IsPermutation(src.perm, |t.rows|)
    requires params.split.Some? && params.split.value.splitType == Some("datetime")
    requires params.split.value.column.Some? && params.split.value.column.value in t.columns
    requires ParseAll(src.parse, Normalized(Column(t, params.split.value.column.value))).Success?
    ensures SplitDatasetAsWritten(params, Engine(false), t, seed, src) == DatetimeAsWrittenOutcome
    ensures SplitDatasetOutcome(params, Engine(false), t, seed, src).Split?
  {
    var p := params.split.value;
    var c, probs := p.column.value, p.probabilities.GetOr(DefaultProbabilities);
    DatetimeBuilds(p);
    assert SplitDatasetOutcome(params, Engine(false), t, seed, src) == DatetimeOutcome(c, probs, Engine(false), t, src.parse);
    DatetimeCutsSorted(c, probs, t, src.parse);
  }

  /** The two versions agree on every configuration that builds a random,
      fixed or stratify splitter, and on every constructor error. */
  lemma AsWrittenAgrees(params: PreprocessingParams, engine: Engine, t: Table, seed: int, src: Sources)
    requires WellFormed(t) && IsPermutation(src.perm, |t.rows|)
    requires var p := params.split.GetOr(EmptySplitParams);
      p.splitType in Registry && Registry[p.splitType] != DatetimeKind
    ensures SplitDatasetAsWritten(params, engine, t, seed, src) == SplitDatasetOutcome(params, engine, t, seed, src)
  {
  }

  /** The warning never changes the outcome: when it fires, the default
      random splitter with proportions (0.7, 0.1, 0.2) runs, and the frame is
      left as it was. */
  lemma WarningMeansDefaultRandom(params: PreprocessingParams, engine: Engine, t: Table, seed: int, src: Sources)
    requires WellFormed(t) && IsPermutation(src.perm, |t.rows|)
    requires Warns(params, t)
    ensures SplitDatasetOutcome(params, engine, t, seed, src)
            == RandomSplitOutcome(DefaultProbabilities, t, engine, seed, src.perm)
    ensures SplitDatasetState(params, engine, t, src) == t
  {
    assert GetSplitter(EmptySplitParams) == Success(RandomSplitter(DefaultProbabilities));
  }

  /** `required_columns`: a fixed, stratify or datetime splitter whose
      column is missing raises KeyError naming it (a stratify splitter on a
      partitioned engine raises its ValueError first) and leaves the frame
      alone; a random splitter requires nothing and never raises. */
  lemma RequiredColumnsMeaning(s: Splitter, engine: Engine, t: Table, seed: int, src: Sources)
    requires WellFormed(t) && IsPermutation(src.perm, |t.rows|)
    ensures s.RequiredColumns() == [] <==> s.RandomSplitter?
    ensures forall c :: c in s.RequiredColumns() && c !in t.columns && !(s.StratifySplitter? && engine.partitioned) ==>
      SplitOutcome(s, engine, t, seed, src) == Raised(KeyError(c)) && SplitState(s, engine, t, src) == t
    ensures s.RandomSplitter? ==> !SplitOutcome(s, engine, t, seed, src).Raised?
  {
  }
}
