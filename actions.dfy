/**
 * The action registry: twelve named operations over a DataFrame, each taking
 * the frame and an optional column argument.  Only their guards and shape
 * fields are modelled; the pandas computations themselves are opaque values
 * carried by the dataset.
 */
module Actions {
  import opened Wrappers
  import opened Text

  /** What an action can return, in the shapes `json.dumps` sees. */
  datatype Value =
    | Int(n: int)
    | Str(s: string)
    | List(items: seq<Value>)
    | Dict(entries: seq<(string, Value)>)  // a Python dict, in insertion order
    | Opaque(repr: string)                 // a pandas or numpy object (a float, a DataFrame)

  /** One column: its label, its dtype name, its count of missing values, and
      the pandas results for it (`mean`, `min`, `max`, `value_counts`). */
  datatype Column = Column(name: string, dtype: string, missing: nat,
                           mean: Value, min: Value, max: Value, counts: Value)

  /** The DataFrame as the actions see it.  `summary`, `correlation` and
      `duplicates` stand for `describe`, `corr` and `duplicated().sum()`;
      `plotPaths` is the list of image files the plotting action writes. */
  datatype Dataset = Dataset(columns: seq<Column>, rows: nat, duplicates: nat,
                             summary: Value, correlation: Value, plotPaths: seq<string>)

  const ColumnNotFound := "Column not found."

  /** `df.columns`. */
  function ColumnNames(df: Dataset): (names: seq<string>)
    ensures forall x :: x in names <==> exists j :: 0 <= j < |df.columns| && df.columns[j].name == x
  {
    var names := seq(|df.columns|, i requires 0 <= i < |df.columns| => df.columns[i].name);
    assert forall j :: 0 <= j < |df.columns| ==> names[j] == df.columns[j].name;
    names
  }

  /** The position of the first column labelled `name`. */
  function IndexOf(cols: seq<Column>, name: string): (i: nat)
    requires exists j :: 0 <= j < |cols| && cols[j].name == name
    ensures i < |cols| && cols[i].name == name
    ensures forall j :: 0 <= j < i ==> cols[j].name != name
  {
    if cols[0].name == name then 0 else 1 + IndexOf(cols[1..], name)
  }

  /** The guard shared by `column_mean`, `column_min`, `column_max` and
      `value_counts`: a missing or unknown column yields the sentinel string,
      otherwise `stat` of the column with that label. */
  function SelectColumn(df: Dataset, column: Option<string>, stat: Column -> Value): Value {
    if column.None? || column.value !in ColumnNames(df) then Str(ColumnNotFound)
    else stat(df.columns[IndexOf(df.columns, column.value)])
  }

  /** The `{col: count}` comprehension of `missing_values`: the columns with at
      least one missing value, in column order. */
  function MissingEntries(cols: seq<Column>): seq<(string, Value)> {
    if cols == [] then []
    else
      var rest := MissingEntries(cols[1..]);
      if cols[0].missing > 0 then [(cols[0].name, Int(cols[0].missing))] + rest else rest
  }

  /** The comprehension keeps a column exactly when its missing count is
      positive, with that count, and nothing else. */
  lemma {:induction false} MissingEntriesExact(cols: seq<Column>)
    ensures |MissingEntries(cols)| <= |cols|
    ensures forall e :: e in MissingEntries(cols) <==>
      exists i :: 0 <= i < |cols| && cols[i].missing > 0 && e == (cols[i].name, Int(cols[i].missing))
  {
    if cols != [] {
      MissingEntriesExact(cols[1..]);
      forall e ensures e in MissingEntries(cols) <==>
        exists i :: 0 <= i < |cols| && cols[i].missing > 0 && e == (cols[i].name, Int(cols[i].missing))
      {
        if e in MissingEntries(cols[1..]) {
          var i :| 0 <= i < |cols[1..]| && cols[1..][i].missing > 0
                   && e == (cols[1..][i].name, Int(cols[1..][i].missing));
          assert cols[i + 1] == cols[1..][i];
        }
        if exists i :: 0 <= i < |cols| && cols[i].missing > 0 && e == (cols[i].name, Int(cols[i].missing)) {
          var i :| 0 <= i < |cols| && cols[i].missing > 0 && e == (cols[i].name, Int(cols[i].missing));
          if i > 0 {
            assert cols[1..][i - 1] == cols[i];
          }
        }
      }
    }
  }

  /** The dict `dataset_overview` builds. */
  function Overview(df: Dataset): Value {
    var names := ColumnNames(df);
    Dict([
      ("rows", Int(df.rows)),
      ("columns", Int(|df.columns|)),
      ("column_names", List(seq(|names|, i requires 0 <= i < |names| => Str(names[i])))),
      ("dtypes", Dict(seq(|df.columns|, i requires 0 <= i < |df.columns| =>
                            (df.columns[i].name, Str(df.columns[i].dtype)))))
    ])
  }

  /** The value stored under `key` in a dict (its first entry for that key). */
  function Get(entries: seq<(string, Value)>, key: string): Option<Value> {
    if entries == [] then None
    else if entries[0].0 == key then Some(entries[0].1)
    else Get(entries[1..], key)
  }

  /** The twelve functions of the registry. */
  datatype Action =
    | DatasetOverview | StatisticalSummary | MissingValues | DuplicateCount
    | ColumnMean | ColumnMin | ColumnMax | ValueCounts
    | CorrelationMatrix | NumberOfRows | NumberOfColumns | PlotNumericColumns
  {
    /** The function's name in the source. */
    function Name(): string {
      match this
      case DatasetOverview => "dataset_overview"
      case StatisticalSummary => "statistical_summary"
      case MissingValues => "missing_values"
      case DuplicateCount => "duplicate_count"
      case ColumnMean => "column_mean"
      case ColumnMin => "column_min"
      case ColumnMax => "column_max"
      case ValueCounts => "value_counts"
      case CorrelationMatrix => "correlation_matrix"
      case NumberOfRows => "number_of_rows"
      case NumberOfColumns => "number_of_columns"
      case PlotNumericColumns => "plot_numeric_columns"
    }

    /** Whether the function reads its `column` parameter. */
    predicate TakesColumn() {
      this == ColumnMean || this == ColumnMin || this == ColumnMax || this == ValueCounts
    }
  }

  /** `KNOWN_ACTIONS`. */
  const KnownActions: map<string, Action> := map[
    "dataset_overview" := DatasetOverview,
    "statistical_summary" := StatisticalSummary,
    "missing_values" := MissingValues,
    "duplicate_count" := DuplicateCount,
    "column_mean" := ColumnMean,
    "column_min" := ColumnMin,
    "column_max" := ColumnMax,
    "value_counts" := ValueCounts,
    "correlation_matrix" := CorrelationMatrix,
    "number_of_rows" := NumberOfRows,
    "number_of_columns" := NumberOfColumns,
    "plot_numeric_columns" := PlotNumericColumns
  ]

  /** `plot_numeric_columns`' return value: the list of saved paths. */
  function PathList(paths: seq<string>): Value {
    List(seq(|paths|, i requires 0 <= i < |paths| => Str(paths[i])))
  }

  /** `KNOWN_ACTIONS[name](df, column)`. */
  function Invoke(a: Action, df: Dataset, column: Option<string>): Value {
    match a
    case DatasetOverview => Overview(df)
    case StatisticalSummary => df.summary
    case MissingValues => Dict(MissingEntries(df.columns))
    case DuplicateCount => Int(df.duplicates)
    case ColumnMean => SelectColumn(df, column, (c: Column) => c.mean)
    case ColumnMin => SelectColumn(df, column, (c: Column) => c.min)
    case ColumnMax => SelectColumn(df, column, (c: Column) => c.max)
    case ValueCounts => SelectColumn(df, column, (c: Column) => c.counts)
    case CorrelationMatrix => df.correlation
    case NumberOfRows => Int(df.rows)
    case NumberOfColumns => Int(|df.columns|)
    case PlotNumericColumns => PathList(df.plotPaths)
  }

  /** The registry holds exactly twelve keys. */
  lemma RegistrySize()
    ensures |KnownActions| == 12
  {
  }

  /** Each of the twelve functions sits in the registry under its own name. */
  lemma RegistryHasNames()
    ensures forall a: Action :: a.Name() in KnownActions && KnownActions[a.Name()] == a
  {
    forall a: Action ensures a.Name() in KnownActions && KnownActions[a.Name()] == a {
      match a
      case DatasetOverview =>
      case StatisticalSummary =>
      case MissingValues =>
      case DuplicateCount =>
      case ColumnMean =>
      case ColumnMin =>
      case ColumnMax =>
      case ValueCounts =>
      case CorrelationMatrix =>
      case NumberOfRows =>
      case NumberOfColumns =>
      case PlotNumericColumns =>
    }
  }

  /** The registry has no other keys. */
  lemma RegistryKeysAreNames()
    ensures forall k :: k in KnownActions ==> KnownActions[k].Name() == k
  {
    forall k | k in KnownActions ensures KnownActions[k].Name() == k {
      assert k in {"dataset_overview", "statistical_summary", "missing_values", "duplicate_count",
                   "column_mean", "column_min", "column_max", "value_counts",
                   "correlation_matrix", "number_of_rows", "number_of_columns", "plot_numeric_columns"};
    }
  }

  /** Each of the twelve functions sits in the registry under its own name,
      and under no other key. */
  lemma RegistryKeys()
    ensures forall a: Action :: a.Name() in KnownActions && KnownActions[a.Name()] == a
    ensures forall k :: k in KnownActions ==> KnownActions[k].Name() == k
  {
    RegistryHasNames();
    RegistryKeysAreNames();
  }

  /** Every name is a non-empty run of lower-case letters and underscores. */
  lemma NameChars(a: Action)
    ensures a.Name() != []
    ensures forall c :: c in a.Name() ==> ('a' <= c <= 'z') || c == '_'
  {
    match a
    case DatasetOverview =>
    case StatisticalSummary =>
    case MissingValues =>
    case DuplicateCount =>
    case ColumnMean =>
    case ColumnMin =>
    case ColumnMax =>
    case ValueCounts =>
    case CorrelationMatrix =>
    case NumberOfRows =>
    case NumberOfColumns =>
    case PlotNumericColumns =>
  }

  /** Every name is already lower case. */
  lemma NameIsLower(a: Action)
    ensures Lower(a.Name()) == a.Name()
  {
    NameChars(a);
    var n := a.Name();
    forall i | 0 <= i < |n| ensures !('A' <= n[i] <= 'Z') {
      assert n[i] in n;
    }
    LowerIdentity(n);
  }

  /** Every name is a non-empty run of word characters. */
  lemma NameIsWord(a: Action)
    ensures a.Name() != []
    ensures forall c :: c in a.Name() ==> IsWordChar(c)
  {
    NameChars(a);
  }

  /** Every key is a lower-case run of word characters, so whatever the
      action pattern extracts and lower-cases can reach every entry
      (`CaseInsensitiveLookup` shows that a name differing from a key only in
      case finds it). */
  lemma KeysAreLowerWords()
    ensures forall k :: k in KnownActions ==> Lower(k) == k
    ensures forall k :: k in KnownActions ==> k != [] && AllSat(k, 0, |k|, IsWordChar)
  {
    RegistryKeysAreNames();
    forall k | k in KnownActions ensures Lower(k) == k && k != [] && AllSat(k, 0, |k|, IsWordChar) {
      NameIsLower(KnownActions[k]);
      NameIsWord(KnownActions[k]);
    }
  }

  /** A name that differs from a registry name only in the case of some of
      its letters is lowered onto that name, so the lookup finds its action. */
  lemma CaseInsensitiveLookup(n: string, a: Action)
    requires |n| == |a.Name()|
    requires forall i :: 0 <= i < |n| ==>
      n[i] == a.Name()[i] || ('a' <= a.Name()[i] <= 'z' && n[i] as int == a.Name()[i] as int - 32)
    ensures Lower(n) == a.Name() && Lower(n) in KnownActions && KnownActions[Lower(n)] == a
  {
    NameChars(a);
    RegistryHasNames();
    forall i | 0 <= i < |n| ensures ToLower(n[i]) == a.Name()[i] {
      assert a.Name()[i] in a.Name();
    }
  }

  /** A column action given no column, or a label the frame lacks, returns
      the sentinel string rather than failing. */
  lemma ColumnGuard(a: Action, df: Dataset, column: Option<string>)
    requires a.TakesColumn()
    requires column.None? || column.value !in ColumnNames(df)
    ensures Invoke(a, df, column) == Str(ColumnNotFound)
  {
  }

  /** Given a label the frame has, a column action returns its statistic for
      the first column carrying that label. */
  lemma ColumnFound(a: Action, df: Dataset, i: nat)
    requires a.TakesColumn() && i < |df.columns|
    requires forall j :: 0 <= j < i ==> df.columns[j].name != df.columns[i].name
    ensures var c := df.columns[i];
      Invoke(a, df, Some(c.name)) ==
        (match a
         case ColumnMean => c.mean
         case ColumnMin => c.min
         case ColumnMax => c.max
         case _ => c.counts)
  {
    var names := ColumnNames(df);
    assert names[i] == df.columns[i].name;
    var k := IndexOf(df.columns, df.columns[i].name);
    assert k == i by {
      assert !(k < i);
      assert !(i < k);
    }
  }

  /** Every action but the four column actions ignores its argument. */
  lemma ArgumentIgnored(a: Action, df: Dataset, x: Option<string>, y: Option<string>)
    requires !a.TakesColumn()
    ensures Invoke(a, df, x) == Invoke(a, df, y)
  {
  }

  /** `missing_values` reports a column exactly when its missing count is
      positive, and reports that count. */
  lemma MissingValuesExact(df: Dataset, name: string, n: int)
    ensures (name, Int(n)) in Invoke(MissingValues, df, None).entries <==>
      exists i :: 0 <= i < |df.columns| && df.columns[i].name == name
                  && df.columns[i].missing == n && n > 0
  {
    MissingEntriesExact(df.columns);
  }

  /** `dataset_overview`'s `rows` and `columns` agree with `number_of_rows`
      and `number_of_columns` on the same frame. */
  lemma OverviewAgrees(df: Dataset, x: Option<string>)
    ensures Invoke(DatasetOverview, df, x).Dict?
    ensures Get(Invoke(DatasetOverview, df, x).entries, "rows") == Some(Invoke(NumberOfRows, df, x))
    ensures Get(Invoke(DatasetOverview, df, x).entries, "columns") == Some(Invoke(NumberOfColumns, df, x))
  {
  }
}
