/** The splitter configurations of ludwig/data/split.py and everything a
    splitter answers without looking at data: `has_split`, `required_columns`,
    `validate`, the registry and `get_splitter`; also the fold cut points
    shared by the random and the datetime splitter. */
module Splitters {
  import opened Wrappers
  import opened Frames

  /** `TMP_SPLIT_COL`: the scratch column that holds computed fold labels. */
  const TmpSplitCol: string := "__SPLIT__"

  /** `SPLIT`: the fixed splitter's default column, and the column
      `split_dataset` warns about. */
  const SplitCol: string := "split"

  /** Feature type names a splitter checks its column against. */
  const Binary: string := "binary"
  const Category: string := "category"
  const Date: string := "date"

  /** A fold index: 0 train, 1 validation, 2 test. */
  type FoldIndex = i: int | 0 <= i < 3

  type Prob = p: real | 0.0 <= p witness 0.0

  /** The train, validation and test proportions. */
  datatype Probs = Probs(train: Prob, validation: Prob, test: Prob) {
    function At(i: FoldIndex): Prob {
      if i == 0 then train else if i == 1 then validation else test
    }
  }

  /** `DEFAULT_PROBABILITIES`. */
  const DefaultProbabilities: Probs := Probs(0.7, 0.1, 0.2)

  /** The exceptions the splitting code raises. */
  datatype Error =
    | ValueError(message: string)
    | KeyError(key: string)
    | TypeError(message: string)
    | AttributeError(name: string)
    | IndexError
    | DateParseError

  /** `backend.df_engine`, reduced to the flag every splitter branches on. */
  datatype Engine = Engine(partitioned: bool)

  /** A call handed over to the partitioned engine's own primitive. */
  datatype EngineCall =
    | RandomSplitCall(frame: Table, probabilities: Probs, seed: int)  // `df.random_split`
    | PartitionSplitCall(frame: Table, probabilities: Probs)          // `df_engine.split`

  /** What a split call ends in: three folds, a hand-over to the partitioned
      engine, or an exception. */
  datatype Outcome = Split(folds: Folds) | Delegated(call: EngineCall) | Raised(error: Error)

  /** A feature of the model configuration: its column name and its type. */
  datatype Feature = Feature(column: string, featureType: string)

  datatype ModelConfig = ModelConfig(inputFeatures: seq<Feature>, outputFeatures: seq<Feature>)

  function AllFeatures(config: ModelConfig): seq<Feature> {
    config.inputFeatures + config.outputFeatures
  }

  /** `{f[COLUMN] for f in features}`. */
  function FeatureNames(fs: seq<Feature>): set<string> {
    set f | f in fs :: f.column
  }

  /** `[f for f in features if f[COLUMN] == c]`. */
  function FeaturesOn(fs: seq<Feature>, c: string): (r: seq<Feature>)
    ensures forall f :: f in r <==> f in fs && f.column == c
  {
    if fs == [] then []
    else
      assert fs == [fs[0]] + fs[1..];
      (if fs[0].column == c then [fs[0]] else []) + FeaturesOn(fs[1..], c)
  }

  /** Feature i is the first one declared on column c. */
  ghost predicate FirstOn(fs: seq<Feature>, c: string, i: int) {
    0 <= i < |fs| && fs[i].column == c && forall j :: 0 <= j < i ==> fs[j].column != c
  }

  datatype SplitterKind = RandomKind | FixedKind | StratifyKind | DatetimeKind

  /** A splitter and the configuration its constructor stores. No method of
      the source reassigns these fields, so a splitter is a value. */
  datatype Splitter =
    | RandomSplitter(probabilities: Probs)
    | FixedSplitter(column: string)
    | StratifySplitter(column: string, probabilities: Probs)
    | DatetimeSplitter(column: string, probabilities: Probs, datetimeFormat: Option<string>, fillValue: string)
  {
    function Kind(): SplitterKind {
      match this
      case RandomSplitter(_) => RandomKind
      case FixedSplitter(_) => FixedKind
      case StratifySplitter(_, _) => StratifyKind
      case DatetimeSplitter(_, _, _, _) => DatetimeKind
    }

    /** `has_split`: the base class answers true, which the fixed splitter
        inherits; the other three ask whether the fold's proportion is positive. */
    predicate HasSplit(i: FoldIndex) {
      if FixedSplitter? then true else probabilities.At(i) > 0.0
    }

    /** `required_columns`. */
    function RequiredColumns(): seq<string> {
      if RandomSplitter? then [] else [column]
    }

    /** The feature types `validate` accepts for the split column. */
    function AllowedTypes(): set<string>
      requires StratifySplitter? || DatetimeSplitter?
    {
      if StratifySplitter? then {Binary, Category} else {Date}
    }

    function TypeMismatchMessage(): string
      requires StratifySplitter? || DatetimeSplitter?
    {
      if StratifySplitter? then "Feature for stratify column " + column + " must be binary or category"
      else "Feature for datetime split column " + column + " must be a datetime"
    }

    /** `validate`: Success(true) when the column is not a declared feature
        (the source only logs a notice), Success(false) when there is
        nothing to object to, and the ValueError when the first feature
        declared on the column has a type the splitter cannot use. */
    function Validate(config: ModelConfig): Result<bool, Error> {
      if !(StratifySplitter? || DatetimeSplitter?) then Success(false)
      else
        var fs := AllFeatures(config);
        if column !in FeatureNames(fs) then Success(true)
        else
          assert exists f :: f in fs && f.column == column;
          var f :| f in fs && f.column == column;
          assert f in FeaturesOn(fs, column);
          if FeaturesOn(fs, column)[0].featureType !in AllowedTypes() then Failure(ValueError(TypeMismatchMessage()))
          else Success(false)
    }
  }

  lemma {:induction false} FirstOnIsHead(fs: seq<Feature>, c: string, i: int)
    requires FirstOn(fs, c, i)
    ensures FeaturesOn(fs, c) != [] && FeaturesOn(fs, c)[0] == fs[i]
  {
    if i > 0 {
      assert FirstOn(fs[1..], c, i - 1);
      FirstOnIsHead(fs[1..], c, i - 1);
    }
  }

  lemma {:induction false} FirstOnExists(fs: seq<Feature>, c: string, k: int)
    requires 0 <= k < |fs| && fs[k].column == c
    ensures exists i :: FirstOn(fs, c, i)
  {
    if fs[0].column == c {
      assert FirstOn(fs, c, 0);
    } else {
      FirstOnExists(fs[1..], c, k - 1);
      var i :| FirstOn(fs[1..], c, i);
      assert FirstOn(fs, c, i + 1);
    }
  }

  /** `validate` raises exactly when the first feature declared on the split
      column has a type the splitter cannot use, logs exactly when no feature
      is declared on it, and the random and fixed splitters never object. */
  lemma ValidateMeaning(s: Splitter, config: ModelConfig)
    ensures !(s.StratifySplitter? || s.DatetimeSplitter?) ==> s.Validate(config) == Success(false)
    ensures s.StratifySplitter? || s.DatetimeSplitter? ==>
      var fs := AllFeatures(config);
      && (s.Validate(config) == Success(true) <==> forall j :: 0 <= j < |fs| ==> fs[j].column != s.column)
      && (s.Validate(config).Failure? <==>
            exists i :: FirstOn(fs, s.column, i) && fs[i].featureType !in s.AllowedTypes())
      && (s.Validate(config).Failure? ==> s.Validate(config).error == ValueError(s.TypeMismatchMessage()))
  {
    if s.StratifySplitter? || s.DatetimeSplitter? {
      var fs := AllFeatures(config);
      if s.column in FeatureNames(fs) {
        var f :| f in fs && f.column == s.column;
        var k :| 0 <= k < |fs| && fs[k] == f;
        FirstOnExists(fs, s.column, k);
        var i :| FirstOn(fs, s.column, i);
        FirstOnIsHead(fs, s.column, i);
      } else {
        forall i | 0 <= i < |fs| ensures fs[i].column != s.column {
          assert fs[i] in fs;
        }
      }
    }
  }

  /** `split_registry`: each splitter class registered under its name, and
      "random" registered as the default, which a missing type resolves to.
      (ludwig/utils/registry.py is not part of this model; any other key is
      treated as not registered.) */
  const Registry: map<Option<string>, SplitterKind> :=
    map[None := RandomKind, Some("random") := RandomKind, Some("fixed") := FixedKind,
        Some("stratify") := StratifyKind, Some("datetime") := DatetimeKind]

  /** The keyword arguments of the `split` section: `type` and the arguments
      the constructors read. None stands for an absent key. */
  datatype SplitParams = SplitParams(
    splitType: Option<string>,
    probabilities: Option<Probs>,
    column: Option<string>,
    datetimeFormat: Option<string>,
    fillValue: Option<string>)

  const EmptySplitParams: SplitParams := SplitParams(None, None, None, None, None)

  function MissingColumnMessage(kind: SplitterKind): string {
    (if kind == StratifyKind then "StratifySplitter" else "DatetimeSplitter")
      + ".__init__() missing 1 required positional argument: 'column'"
  }

  /** `splitter_cls(**kwargs)`: every constructor default applied; the
      stratify and datetime constructors have no default for `column`. */
  function Construct(kind: SplitterKind, p: SplitParams): (r: Result<Splitter, Error>)
    ensures r.Success? ==> r.value.Kind() == kind
    ensures r.Failure? <==> (kind == StratifyKind || kind == DatetimeKind) && p.column.None?
    ensures r.Success? && kind != RandomKind ==> r.value.column == p.column.GetOr(SplitCol)
    ensures r.Success? && kind != FixedKind ==>
      r.value.probabilities == p.probabilities.GetOr(DefaultProbabilities)
  {
    var probs := p.probabilities.GetOr(DefaultProbabilities);
    match kind
    case RandomKind => Success(RandomSplitter(probs))
    case FixedKind => Success(FixedSplitter(p.column.GetOr(SplitCol)))
    case StratifyKind =>
      if p.column.None? then Failure(TypeError(MissingColumnMessage(kind)))
      else Success(StratifySplitter(p.column.value, probs))
    case DatetimeKind =>
      if p.column.None? then Failure(TypeError(MissingColumnMessage(kind)))
      else Success(DatetimeSplitter(p.column.value, probs, p.datetimeFormat, p.fillValue.GetOr("")))
  }

  /** What `get_splitter` hands back as written: a splitter, the ValueError
      object it returns for an unknown type, or an exception from the
      constructor. */
  datatype Factory = Built(splitter: Splitter) | ReturnedError(returned: Error) | ConstructorRaised(error: Error)

  function InvalidTypeMessage(name: string): string {
    "Invalid split type: " + name
  }

  /** `get_splitter` as written: for an unknown type it RETURNS the ValueError. */
  function GetSplitterAsWritten(p: SplitParams): (r: Factory)
    ensures r.ReturnedError? <==> p.splitType !in Registry
    ensures r.Built? ==> p.splitType in Registry && r.splitter.Kind() == Registry[p.splitType]
  {
    if p.splitType !in Registry then ReturnedError(ValueError(InvalidTypeMessage(p.splitType.value)))
    else
      match Construct(Registry[p.splitType], p)
      case Success(s) => Built(s)
      case Failure(e) => ConstructorRaised(e)
  }

  /** `get_splitter` as evidently intended: an unknown type raises the
      ValueError; a missing type builds the default random splitter. */
  function GetSplitter(p: SplitParams): (r: Result<Splitter, Error>)
    ensures p.splitType !in Registry ==> r == Failure(ValueError(InvalidTypeMessage(p.splitType.value)))
    ensures r.Success? ==> p.splitType in Registry && r.value.Kind() == Registry[p.splitType]
    ensures p.splitType.None? ==> r == Success(RandomSplitter(p.probabilities.GetOr(DefaultProbabilities)))
    ensures p.splitType in Registry ==> r == Construct(Registry[p.splitType], p)
  {
    match GetSplitterAsWritten(p)
    case Built(s) => Success(s)
    case ReturnedError(e) => Failure(e)
    case ConstructorRaised(e) => Failure(e)
  }

  /** `int(p * n)` for a non-negative proportion: the largest count not above p * n. */
  function Portion(p: Prob, n: nat): (k: nat)
    ensures k as real <= p * n as real < k as real + 1.0
  {
    assert p * n as real >= 0.0;
    (p * n as real).Floor
  }

  /** `d1 = int(p0 * n)` and `d2 = d1 + int(p1 * n)`. */
  function CutPoints(probs: Probs, n: nat): (d: (nat, nat))
    ensures d.0 <= d.1
  {
    var d1 := Portion(probs.train, n);
    (d1, d1 + Portion(probs.validation, n))
  }

  function Min(a: nat, b: nat): nat {
    if a <= b then a else b
  }

  /** Splitting rows at the cut points with Python's slice clamping:
      `[:d1]`, `[d1:d2]`, `[d2:]`. */
  function CutRows(rows: seq<Row>, probs: Probs): (r: (seq<Row>, seq<Row>, seq<Row>))
    ensures r.0 + r.1 + r.2 == rows
  {
    var (d1, d2) := CutPoints(probs, |rows|);
    var c1, c2 := Min(d1, |rows|), Min(d2, |rows|);
    assert rows == rows[..c1] + rows[c1..c2] + rows[c2..];
    (rows[..c1], rows[c1..c2], rows[c2..])
  }

  /** The three slices as frames with the input's columns. */
  function CutFolds(t: Table, probs: Probs): Folds {
    var (a, b, c) := CutRows(t.rows, probs);
    Folds(Some(Table(t.columns, a)), Some(Table(t.columns, b)), Some(Table(t.columns, c)))
  }

  /** The three folds laid end to end are the frame's rows. */
  lemma CutFoldsAll(t: Table, probs: Probs)
    ensures AllRows(CutFolds(t, probs)) == t.rows
  {
    var r := CutRows(t.rows, probs);
    assert AllRows(CutFolds(t, probs)) == r.0 + r.1 + r.2;
  }

  /** When the first two proportions leave room (p0 + p1 <= 1), the cuts fall
      inside the frame: train gets int(p0 * n) rows, validation int(p1 * n),
      and test the remaining n - d2. */
  lemma CutSizes(rows: seq<Row>, probs: Probs)
    requires probs.train + probs.validation <= 1.0
    ensures var (d1, d2) := CutPoints(probs, |rows|);
      var r := CutRows(rows, probs);
      && d2 <= |rows|
      && |r.0| == Portion(probs.train, |rows|)
      && |r.1| == Portion(probs.validation, |rows|)
      && |r.2| == |rows| - d2
      && |r.0| + |r.1| + |r.2| == |rows|
  {
    var n := |rows|;
    var k0, k1 := Portion(probs.train, n), Portion(probs.validation, n);
    ScaledSumAtMost(probs.train, probs.validation, n as real);
    assert (k0 + k1) as real <= n as real;
    assert CutPoints(probs, n) == (k0, k0 + k1);
    assert Min(k0, n) == k0 && Min(k0 + k1, n) == k0 + k1;
  }

  /** p0 * n + p1 * n never exceeds n when p0 + p1 <= 1. */
  lemma ScaledSumAtMost(p0: Prob, p1: Prob, n: real)
    requires p0 + p1 <= 1.0 && 0.0 <= n
    ensures p0 * n + p1 * n <= n
  {
    assert p0 * n + p1 * n == (p0 + p1) * n;
    assert n - (p0 + p1) * n == (1.0 - (p0 + p1)) * n;
  }
}
