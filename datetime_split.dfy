/** `DatetimeSplitter.split` (ludwig/data/split.py): normalise the column's
    values to date strings, parse them into int64 timestamps written to the
    scratch column, sort the frame by them, drop the scratch column and cut
    the sorted frame at the proportions.

    `pd.to_datetime` is a parameter: `parse(v)` is the timestamp it gives a
    value, None for a value it cannot parse. */
module DatetimeSplit {
  import opened Wrappers
  import opened Frames
  import opened Splitters

  /** Python's `str` of a natural number. */
  function Digits(n: nat): string
    decreases n
  {
    var d := ["0123456789"[n % 10]];
    if n < 10 then d else Digits(n / 10) + d
  }

  /** Python's `str` of an integer. */
  function IntToString(i: int): string {
    if i < 0 then "-" + Digits(-i) else Digits(i)
  }

  /** `f"{x[0]}-{x[1]}-{x[2]} {x[5]}:{x[6]}:{x[7]}"`, given each element's
      text. */
  function DateString(parts: seq<string>): string
    requires |parts| >= 8
  {
    parts[0] + "-" + parts[1] + "-" + parts[2] + " " + parts[5] + ":" + parts[6] + ":" + parts[7]
  }

  /** Each character of a string as its own text. */
  function Chars(s: string): (r: seq<string>)
    ensures |r| == |s| && forall i :: 0 <= i < |s| ==> r[i] == [s[i]]
  {
    seq(|s|, i requires 0 <= i < |s| => [s[i]])
  }

  /** A date preprocessed into a list of components, formatted. */
  function FormatList(items: seq<int>): string
    requires |items| >= 8
  {
    DateString(seq(|items|, i requires 0 <= i < |items| => IntToString(items[i])))
  }

  /** `list_to_date_str` as written, with `and` in its guard: an int has no
      `len` (TypeError), a 9-character string is formatted character by
      character, and every list is formatted, a list shorter than 8 failing
      on `x[7]` (IndexError). */
  function ListToDateStrAsWritten(x: Value): Result<Value, Error> {
    match x
    case Int(_) => Failure(TypeError("object of type 'int' has no len()"))
    case Str(s) =>
      if |s| != 9 then Success(x)
      else Success(Str(DateString(Chars(s))))
    case IntList(items) =>
      if |items| < 8 then Failure(IndexError)
      else Success(Str(FormatList(items)))
  }

  /** `list_to_date_str` as intended, with `or`: only a 9-element list, the
      form Ludwig's date preprocessing produces, is formatted. */
  function ListToDateStr(x: Value): Value {
    if x.IntList? && |x.items| == 9 then Str(FormatList(x.items)) else x
  }

  /** The corrected normalisation leaves everything but a date list alone,
      turns a date list into a string, is idempotent, and agrees with the
      code as written wherever the two guards agree: on 9-element lists and
      on strings whose length is not 9. */
  lemma ListToDateStrMeaning(x: Value)
    ensures ListToDateStr(x) != x <==> x.IntList? && |x.items| == 9
    ensures ListToDateStr(x).Str? || ListToDateStr(x) == x
    ensures ListToDateStr(ListToDateStr(x)) == ListToDateStr(x)
    ensures (x.IntList? && |x.items| == 9) || (x.Str? && |x.s| != 9) ==>
      ListToDateStrAsWritten(x) == Success(ListToDateStr(x))
  {
  }

  /** Inputs on which the two guards part: an int raises TypeError, the
      9-character string "2021-1-01" is scrambled to "2-0-2 1:-:0", and a
      3-element list raises IndexError, where the intended function returns
      each unchanged. */
  lemma ListToDateStrAsWrittenDiffers()
    ensures ListToDateStrAsWritten(Int(5)) == Failure(TypeError("object of type 'int' has no len()"))
    ensures ListToDateStr(Int(5)) == Int(5)
    ensures ListToDateStrAsWritten(Str("2021-1-01")) == Success(Str("2-0-2 1:-:0"))
    ensures ListToDateStr(Str("2021-1-01")) == Str("2021-1-01")
    ensures ListToDateStrAsWritten(IntList([1, 2, 3])) == Failure(IndexError)
    ensures ListToDateStr(IntList([1, 2, 3])) == IntList([1, 2, 3])
  {
    var parts := Chars("2021-1-01");
    assert parts[0] == "2" && parts[1] == "0" && parts[2] == "2";
    assert parts[5] == "1" && parts[6] == "-" && parts[7] == "0";
    assert DateString(parts) == "2-0-2 1:-:0";
  }

  /** `backend.df_engine.map_objects(column, list_to_date_str)`. */
  function Normalized(vals: seq<Value>): (r: seq<Value>)
    ensures |r| == |vals|
    ensures forall i :: 0 <= i < |vals| ==> r[i] == ListToDateStr(vals[i])
  {
    seq(|vals|, i requires 0 <= i < |vals| => ListToDateStr(vals[i]))
  }

  /** `to_datetime(column).values.astype("int64")`: the timestamps, or
      DateParseError when some value does not parse. */
  function ParseAll(parse: Value -> Option<int>, vals: seq<Value>): (r: Result<seq<int>, Error>)
    ensures r.Success? <==> forall i :: 0 <= i < |vals| ==> parse(vals[i]).Some?
    ensures r.Failure? ==> r.error == DateParseError
    ensures r.Success? ==> |r.value| == |vals|
    ensures r.Success? ==> forall i :: 0 <= i < |vals| ==> r.value[i] == parse(vals[i]).value
  {
    if vals == [] then Success([])
    else
      match parse(vals[0])
      case None => Failure(DateParseError)
      case Some(t) =>
        match ParseAll(parse, vals[1..])
        case Failure(e) => Failure(e)
        case Success(rest) =>
          assert forall i :: 1 <= i < |vals| ==> vals[i] == vals[1..][i - 1];
          Success([t] + rest)
  }

  /** The frame sorted by timestamp, without the scratch column. */
  function SortedFrame(t: Table, ts: seq<int>): (r: Table)
    requires |ts| == |t.rows|
    ensures r.columns == t.columns - {TmpSplitCol} && |r.rows| == |t.rows|
  {
    var order := SortValues(ts);
    PermutationInBounds(order, |ts|);
    Table(t.columns - {TmpSplitCol}, Gather(StripRows(t.rows, TmpSplitCol), order))
  }

  /** Sorting the marked frame by the scratch column and dropping it gives
      the sorted frame. */
  lemma SortThenDrop(t: Table, ts: seq<int>)
    requires WellFormed(t) && |ts| == |t.rows|
    ensures var marked := WithColumn(t, TmpSplitCol, IntCells(ts));
      Drop(Table(marked.columns, Gather(marked.rows, SortValues(ts))), TmpSplitCol) == SortedFrame(t, ts)
  {
    var marked := WithColumn(t, TmpSplitCol, IntCells(ts));
    var order := SortValues(ts);
    StripGather(marked.rows, order, TmpSplitCol);
    StripWithColumn(t, TmpSplitCol, IntCells(ts));
  }

  /** What the corrected `DatetimeSplitter(column, probabilities).split`
      ends in. */
  function DatetimeOutcome(column: string, probs: Probs, engine: Engine, t: Table, parse: Value -> Option<int>): (r: Outcome)
    requires WellFormed(t)
    ensures r.Raised? <==> column !in t.columns || ParseAll(parse, Normalized(Column(t, column))).Failure?
    ensures r.Delegated? ==> engine.partitioned
  {
    if column !in t.columns then Raised(KeyError(column))
    else
      match ParseAll(parse, Normalized(Column(t, column)))
      case Failure(e) => Raised(e)
      case Success(ts) =>
        var sorted := SortedFrame(t, ts);
        if engine.partitioned then Delegated(PartitionSplitCall(sorted, probs))
        else Split(CutFolds(sorted, probs))
  }

  /** The caller's frame afterwards: it keeps the scratch column, holding the
      normalised values when parsing fails and the timestamps otherwise. */
  function DatetimeState(column: string, t: Table, parse: Value -> Option<int>): Table
    requires WellFormed(t)
  {
    if column !in t.columns then t
    else
      var normalized := Normalized(Column(t, column));
      match ParseAll(parse, normalized)
      case Failure(_) => WithColumn(t, TmpSplitCol, normalized)
      case Success(ts) => WithColumn(t, TmpSplitCol, IntCells(ts))
  }

  /** `DatetimeSplitter.split` as intended, reading `self.column`. */
  method DatetimeSplit(column: string, probs: Probs, engine: Engine, df: DataFrame, parse: Value -> Option<int>)
    returns (out: Outcome)
    requires df.Valid()
    modifies df
    ensures df.Valid()
    ensures out == DatetimeOutcome(column, probs, engine, old(df.Snapshot()), parse)
    ensures df.Snapshot() == DatetimeState(column, old(df.Snapshot()), parse)
  {
    ghost var before := df.Snapshot();
    if column !in df.columns {
      return Raised(KeyError(column));
    }
    var normalized := Normalized(Column(df.Snapshot(), column));
    df.SetColumn(TmpSplitCol, normalized);
    var parsed := ParseAll(parse, normalized);
    if parsed.Failure? {
      return Raised(parsed.error);
    }
    var ts := parsed.value;
    df.SetColumn(TmpSplitCol, IntCells(ts));
    WithColumnTwice(before, TmpSplitCol, normalized, IntCells(ts));
    var marked := df.Snapshot();
    var order := SortValues(ts);
    var sorted := Drop(Table(marked.columns, Gather(marked.rows, order)), TmpSplitCol);
    SortThenDrop(before, ts);
    if engine.partitioned {
      return Delegated(PartitionSplitCall(sorted, probs));
    }
    out := Split(CutFolds(sorted, probs));
  }

  /** What `DatetimeSplitter.split` as written ends in: the constructor
      (ludwig/data/split.py:149-152) sets `column`, `probabilities`,
      `datetime_format` and `fill_value` but no `col`, so reading `self.col`
      raises AttributeError. */
  const DatetimeAsWrittenOutcome: Outcome := Raised(AttributeError("col"))

  /** `DatetimeSplitter.split` as written: it fails on `self.col` before the
      frame is touched, whatever the frame holds. */
  method DatetimeSplitAsWritten(df: DataFrame) returns (out: Outcome)
    requires df.Valid()
    ensures out == DatetimeAsWrittenOutcome
  {
    out := DatetimeAsWrittenOutcome;
  }

  /** The column's dates all parse when each normalised value does. */
  lemma ColumnParses(column: string, t: Table, parse: Value -> Option<int>)
    requires WellFormed(t) && column in t.columns
    requires forall i :: 0 <= i < |t.rows| ==> parse(ListToDateStr(t.rows[i][column])).Some?
    ensures ParseAll(parse, Normalized(Column(t, column))).Success?
  {
    var vals := Normalized(Column(t, column));
    forall i | 0 <= i < |vals| ensures parse(vals[i]).Some? {
      assert vals[i] == ListToDateStr(t.rows[i][column]);
    }
  }

  /** When the whole column parses, an unpartitioned datetime split cuts the
      sorted frame. */
  lemma DatetimeCutsSorted(column: string, probs: Probs, t: Table, parse: Value -> Option<int>)
    requires WellFormed(t) && column in t.columns
    requires ParseAll(parse, Normalized(Column(t, column))).Success?
    ensures var ts := ParseAll(parse, Normalized(Column(t, column))).value;
      DatetimeOutcome(column, probs, Engine(false), t, parse) == Split(CutFolds(SortedFrame(t, ts), probs))
  {
  }

  /** Datetime split on an unpartitioned frame whose dates all parse: three
      folds which laid end to end are the input rows (scratch column removed)
      reordered by `sort_values`. */
  lemma DatetimeFoldsMeaning(column: string, probs: Probs, t: Table, parse: Value -> Option<int>)
    requires WellFormed(t) && column in t.columns
    requires ParseAll(parse, Normalized(Column(t, column))).Success?
    ensures var ts := ParseAll(parse, Normalized(Column(t, column))).value;
      var out := DatetimeOutcome(column, probs, Engine(false), t, parse);
      && out.Split?
      && AllRows(out.folds) == Gather(StripRows(t.rows, TmpSplitCol), SortValues(ts))
  {
    DatetimeCutsSorted(column, probs, t, parse);
    var ts := ParseAll(parse, Normalized(Column(t, column))).value;
    CutFoldsAll(SortedFrame(t, ts), probs);
  }

  /** The folds hold every input row exactly once, scratch column removed. */
  lemma DatetimeFoldsPermute(column: string, probs: Probs, t: Table, parse: Value -> Option<int>)
    requires WellFormed(t) && column in t.columns
    requires ParseAll(parse, Normalized(Column(t, column))).Success?
    ensures DatetimeOutcome(column, probs, Engine(false), t, parse).Split?
    ensures multiset(AllRows(DatetimeOutcome(column, probs, Engine(false), t, parse).folds))
            == multiset(StripRows(t.rows, TmpSplitCol))
  {
    DatetimeFoldsMeaning(column, probs, t, parse);
    var ts := ParseAll(parse, Normalized(Column(t, column))).value;
    PermutedMultiset(StripRows(t.rows, TmpSplitCol), SortValues(ts));
  }

  /** The folds laid end to end are in chronological order: the i-th row is
      the input row at order[i], and timestamps never decrease along order. */
  lemma DatetimeFoldsChronological(column: string, probs: Probs, t: Table, parse: Value -> Option<int>)
    requires WellFormed(t) && column in t.columns
    requires ParseAll(parse, Normalized(Column(t, column))).Success?
    ensures var ts := ParseAll(parse, Normalized(Column(t, column))).value;
      var order := SortValues(ts);
      var out := DatetimeOutcome(column, probs, Engine(false), t, parse);
      && out.Split? && |AllRows(out.folds)| == |order| == |t.rows|
      && InBounds(order, |t.rows|) && SortedBy(ts, order)
      && (forall i :: 0 <= i < |order| ==> AllRows(out.folds)[i] == StripRows(t.rows, TmpSplitCol)[order[i]])
  {
    DatetimeFoldsMeaning(column, probs, t, parse);
    var ts := ParseAll(parse, Normalized(Column(t, column))).value;
    SortedGather(StripRows(t.rows, TmpSplitCol), ts);
  }

  /** When p0 + p1 <= 1, the datetime split's train fold holds the int(p0 * n)
      earliest rows, validation the next int(p1 * n), test the rest. */
  lemma DatetimeFoldSizes(column: string, probs: Probs, t: Table, parse: Value -> Option<int>)
    requires WellFormed(t) && column in t.columns
    requires ParseAll(parse, Normalized(Column(t, column))).Success?
    requires probs.train + probs.validation <= 1.0
    ensures DatetimeOutcome(column, probs, Engine(false), t, parse).Split?
    ensures var f := DatetimeOutcome(column, probs, Engine(false), t, parse).folds;
      && |FoldRows(f.train)| == Portion(probs.train, |t.rows|)
      && |FoldRows(f.validation)| == Portion(probs.validation, |t.rows|)
      && |FoldRows(f.test)| == |t.rows| - Portion(probs.train, |t.rows|) - Portion(probs.validation, |t.rows|)
  {
    var ts := ParseAll(parse, Normalized(Column(t, column))).value;
    var sorted := SortedFrame(t, ts);
    DatetimeCutsSorted(column, probs, t, parse);
    assert DatetimeOutcome(column, probs, Engine(false), t, parse) == Split(CutFolds(sorted, probs));
    CutSizes(sorted.rows, probs);
    var f := CutFolds(sorted, probs);
    var cut := CutRows(sorted.rows, probs);
    assert FoldRows(f.train) == cut.0 && FoldRows(f.validation) == cut.1 && FoldRows(f.test) == cut.2;
  }
}
