/** src/backend/services/ai_processor.py: fill in the missing categories of a bill
    with the vector database's prediction, then fold the bill into totals per flow,
    per category and per month; and the result shaping of `train_model`.

    The predictor, Python's `str` of a float, `pd.to_numeric` of a text amount and
    the month label of a time cell are parameters: they are the vector database and
    library parsers. */
module AiProcessor {
  import opened Common
  import opened BillRows
  import opened VectorIndex
  import BackendVectorDb

  /** A bill record as a dict: column name to cell. */
  type Record = map<string, Cell>

  const Unclassified := "未分类"
  const CategoryKey := "类型"
  const ConfidenceKey := "分类置信度"
  const MerchantKey := "交易对方"
  const ProductKey := "商品名称"
  const AmountKey := "金额(元)"
  const FlowKey := "收/支"
  const TimeKey := "交易时间"
  const NoBillData := "没有提供账单数据"
  const ValueError := "ValueError"
  const AttributeError := "AttributeError"

  /** What `process_with_ai` is given: a list of record dicts, a dict (which reports
      an earlier error when it has an `error` key), or a DataFrame. */
  datatype BillData = Records(rows: seq<Record>) | ErrorReport(fields: Record) | Frame(records: seq<Record>)

  /** The columns of `pd.DataFrame(data)`: every key of every record. */
  function Columns(data: seq<Record>): set<string>
  {
    set i, k | 0 <= i < |data| && k in data[i] :: k
  }

  /** A record widened to the frame's columns, the missing ones NaN. */
  function Fill(row: Record, columns: set<string>): (r: Record)
    ensures r.Keys == columns
  {
    map k | k in columns :: if k in row then row[k] else NaN
  }

  /** `pd.DataFrame(data)` followed by `iterrows()` / `to_dict()`: the same records in
      order, each carrying every column of the frame. */
  function ToFrame(data: seq<Record>): (frame: seq<Record>)
    ensures |frame| == |data|
    ensures forall i :: 0 <= i < |data| ==>
              frame[i].Keys == Columns(data)
              && forall k :: k in data[i] ==> frame[i][k] == data[i][k]
  {
    seq(|data|, i requires 0 <= i < |data| => Fill(data[i], Columns(data)))
  }

  /** Python truthiness of a cell: NaN is a non-zero float, hence truthy. */
  predicate Truthy(c: Cell)
  {
    match c
    case NaN => true
    case Text(s) => s != ""
    case Number(x) => x != 0.0
  }

  /** Line 34: the record already has a non-empty, non-NaN category. */
  predicate Categorised(rec: Record)
  {
    CategoryKey in rec && Truthy(rec[CategoryKey]) && !rec[CategoryKey].NaN?
  }

  /** Lines 39-40: `str(row[key])`, or "" when the column is missing or NaN. */
  function FieldText(rec: Record, key: string, show: real -> string): string
  {
    if key !in rec then ""
    else match rec[key]
      case NaN => ""
      case Text(s) => s
      case Number(x) => show(x)
  }

  /** The merchant and product handed to the predictor. */
  function Query(rec: Record, show: real -> string): (string, string)
  {
    (FieldText(rec, MerchantKey, show), FieldText(rec, ProductKey, show))
  }

  /** Lines 46-47: the predicted category, or 未分类 when it is None or empty, and the
      prediction's confidence. */
  function Classified(rec: Record, p: Prediction): Record
  {
    rec[CategoryKey := Text(if p.category.Some? && p.category.value != "" then p.category.value else Unclassified)]
       [ConfidenceKey := Number(p.confidence)]
  }

  /** The merchant and product pairs the predictor is asked about, in row order. */
  function QueriesOf(frame: seq<Record>, show: real -> string): seq<(string, string)>
  {
    if frame == [] then []
    else QueriesOf(frame[..|frame| - 1], show)
         + (if Categorised(frame[|frame| - 1]) then [] else [Query(frame[|frame| - 1], show)])
  }

  /** A classified record keeps every other column, has a non-empty category and
      carries the confidence. */
  lemma ClassifiedSpec(rec: Record, p: Prediction)
    ensures var r := Classified(rec, p);
            && Categorised(r)
            && r[ConfidenceKey] == Number(p.confidence)
            && (p.category.Some? && p.category.value != "" ==> r[CategoryKey] == Text(p.category.value))
            && (p.category.None? ==> r[CategoryKey] == Text(Unclassified))
            && (forall k :: k in rec && k != CategoryKey && k != ConfidenceKey ==> r[k] == rec[k])
            && r.Keys == rec.Keys + {CategoryKey, ConfidenceKey}
  {
  }

  /** Record `i` of `processed` is record `i` of `frame`, classified by the predictor
      exactly when it had no category. */
  predicate ProcessedFrom(frame: seq<Record>, processed: seq<Record>, show: real -> string,
                          predict: ((string, string)) -> Result<Prediction, string>)
  {
    && |processed| == |frame|
    && forall i :: 0 <= i < |frame| ==>
         if Categorised(frame[i]) then processed[i] == frame[i]
         else predict(Query(frame[i], show)).Ok? && processed[i] == Classified(frame[i], predict(Query(frame[i], show)).value)
  }

  /** The record loop of `process_with_ai` (lines 29-49): categorised records are kept
      as they are and never reach the predictor; every other record is sent, merchant
      and product as text, and classified. A predictor that raises aborts the loop. */
  method ClassifyRecords(frame: seq<Record>, show: real -> string, predict: ((string, string)) -> Result<Prediction, string>)
    returns (r: Result<seq<Record>, string>, queries: seq<(string, string)>)
    ensures r.Err? <==> exists i :: 0 <= i < |frame| && !Categorised(frame[i]) && predict(Query(frame[i], show)).Err?
    ensures r.Ok? ==>
              && queries == QueriesOf(frame, show)
              && ProcessedFrom(frame, r.value, show, predict)
  {
    var processed: seq<Record> := [];
    queries := [];
    var i := 0;
    while i < |frame|
      invariant 0 <= i <= |frame| && |processed| == i
      invariant queries == QueriesOf(frame[..i], show)
      invariant forall k :: 0 <= k < i && !Categorised(frame[k]) ==> predict(Query(frame[k], show)).Ok?
      invariant forall k :: 0 <= k < i ==>
                  if Categorised(frame[k]) then processed[k] == frame[k]
                  else processed[k] == Classified(frame[k], predict(Query(frame[k], show)).value)
    {
      var rec := frame[i];
      assert frame[..i + 1][..i] == frame[..i];
      if Categorised(rec) {
        processed := processed + [rec];
      } else {
        var q := Query(rec, show);
        queries := queries + [q];
        var p := predict(q);
        if p.Err? {
          r := Err(p.error);
          return;
        }
        processed := processed + [Classified(rec, p.value)];
      }
      i := i + 1;
    }
    assert frame[..i] == frame;
    r := Ok(processed);
  }

  /** The predictor is asked once for each row without a category, about that row,
      and about nothing else. */
  lemma {:induction false} QueriesOfSpec(frame: seq<Record>, show: real -> string)
    ensures |QueriesOf(frame, show)| <= |frame|
    ensures forall q :: q in QueriesOf(frame, show) <==>
              exists i :: 0 <= i < |frame| && !Categorised(frame[i]) && q == Query(frame[i], show)
    ensures (forall i :: 0 <= i < |frame| ==> Categorised(frame[i])) ==> QueriesOf(frame, show) == []
  {
    if frame != [] {
      var init := frame[..|frame| - 1];
      QueriesOfSpec(init, show);
      assert forall i :: 0 <= i < |init| ==> init[i] == frame[i];
    }
  }

  /** `pd.to_numeric(..., errors='coerce')` of a cell: text through the given parser,
      NaN when it does not parse. */
  function Amount(rec: Record, parse: string -> Option<real>): Option<real>
  {
    if AmountKey !in rec then None
    else match rec[AmountKey]
      case NaN => None
      case Number(x) => Some(x)
      case Text(s) => parse(s)
  }

  predicate HasFlow(rec: Record, flow: string)
  {
    FlowKey in rec && rec[FlowKey] == Text(flow)
  }

  /** `df[df['收/支'] == flow]['金额(元)'].sum()`: NaN amounts add nothing. */
  function FlowSum(frame: seq<Record>, flow: string, parse: string -> Option<real>): real
  {
    if frame == [] then 0.0
    else
      var last := frame[|frame| - 1];
      FlowSum(frame[..|frame| - 1], flow, parse)
      + (if HasFlow(last, flow) && Amount(last, parse).Some? then Amount(last, parse).value else 0.0)
  }

  /** `df[df['类型'] == category]`; NaN equals nothing, itself included. */
  function OfCategory(frame: seq<Record>, category: Cell): seq<Record>
  {
    if frame == [] then []
    else
      var last := frame[|frame| - 1];
      OfCategory(frame[..|frame| - 1], category)
      + (if CategoryKey in last && last[CategoryKey] == category && !category.NaN? then [last] else [])
  }

  /** The category column. */
  function CategoryColumn(frame: seq<Record>): seq<Cell>
  {
    seq(|frame|, i requires 0 <= i < |frame| => if CategoryKey in frame[i] then frame[i][CategoryKey] else NaN)
  }

  /** Line 100: the month label of a record's time, `pd.to_datetime(...).dt.strftime('%Y-%m')`.
      A missing or NaN time gives NaT and so a NaN label (`None`); any other cell goes
      through `monthOf`, which reports an `Err` when the time does not parse (the
      conversion then raises for the whole column). */
  function Month(rec: Record, monthOf: Cell -> Result<Option<string>, string>): Result<Option<string>, string>
  {
    if TimeKey !in rec || rec[TimeKey].NaN? then Ok(None) else monthOf(rec[TimeKey])
  }

  /** Every time of the frame converts, so line 100 does not raise. */
  predicate TimesParse(frame: seq<Record>, monthOf: Cell -> Result<Option<string>, string>)
  {
    forall i :: 0 <= i < |frame| ==> Month(frame[i], monthOf).Ok?
  }

  /** `df[df['月份'] == month]`: the records whose label is `month`. A NaN label equals
      nothing, itself included. */
  function OfMonth(frame: seq<Record>, month: Option<string>, monthOf: Cell -> Result<Option<string>, string>): seq<Record>
  {
    if frame == [] then []
    else
      var last := frame[|frame| - 1];
      OfMonth(frame[..|frame| - 1], month, monthOf)
      + (if month.Some? && Month(last, monthOf) == Ok(month) then [last] else [])
  }

  /** The 月份 column. */
  function MonthColumn(frame: seq<Record>, monthOf: Cell -> Result<Option<string>, string>): (column: seq<Option<string>>)
    requires TimesParse(frame, monthOf)
    ensures |column| == |frame|
    ensures forall i :: 0 <= i < |frame| ==> Month(frame[i], monthOf) == Ok(column[i])
  {
    seq(|frame|, i requires 0 <= i < |frame| => Month(frame[i], monthOf).value)
  }

  /** `Series.unique()`: each value once, in order of first appearance. */
  function Distinct<T(==,!new)>(s: seq<T>): (r: seq<T>)
    ensures forall x :: x in r <==> x in s
    ensures forall i, j :: 0 <= i < j < |r| ==> r[i] != r[j]
  {
    if s == [] then []
    else
      var d := Distinct(s[..|s| - 1]);
      assert forall x :: x in s <==> x in s[..|s| - 1] || x == s[|s| - 1] by {
        assert s == s[..|s| - 1] + [s[|s| - 1]];
      }
      if s[|s| - 1] in d then d else d + [s[|s| - 1]]
  }

  /** `r` lists its values in the order of their first appearance in `s`: of two
      values it lists, the earlier one occurs in `s` before any occurrence of the
      later one. */
  ghost predicate FirstSeenOrder<T>(s: seq<T>, r: seq<T>)
  {
    forall i, j :: 0 <= i < j < |r| ==> exists p :: 0 <= p < |s| && s[p] == r[i] && r[j] !in s[..p]
  }

  /** `unique()` keeps the order of first appearance. */
  lemma {:induction false} DistinctOrder<T(!new)>(s: seq<T>)
    ensures FirstSeenOrder(s, Distinct(s))
  {
    if s != [] {
      var init := s[..|s| - 1];
      DistinctOrder(init);
      var d := Distinct(init);
      var r := Distinct(s);
      assert forall i :: 0 <= i < |d| ==> r[i] == d[i];
      forall i, j | 0 <= i < j < |r|
        ensures exists p :: 0 <= p < |s| && s[p] == r[i] && r[j] !in s[..p]
      {
        if j < |d| {
          var p :| 0 <= p < |init| && init[p] == d[i] && d[j] !in init[..p];
          assert s[..p] == init[..p];
          assert s[p] == r[i];
        } else {
          assert r[j] == s[|s| - 1] && r[j] !in init;
          assert r[i] in d;
          var p :| 0 <= p < |init| && init[p] == r[i];
          assert s[..p] == init[..p];
          assert s[p] == r[i];
        }
      }
    }
  }

  datatype CategoryStat = CategoryStat(expense: real, income: real, count: nat)
  datatype MonthStat = MonthStat(expense: real, income: real)
  datatype Stats = Stats(totalExpense: real, totalIncome: real, categoryStats: map<Cell, CategoryStat>,
                         monthlyStats: map<Option<string>, MonthStat>, recordCount: nat)

  function CategoryStatOf(frame: seq<Record>, category: Cell, parse: string -> Option<real>): CategoryStat
  {
    var rows := OfCategory(frame, category);
    CategoryStat(FlowSum(rows, "支出", parse), FlowSum(rows, "收入", parse), |rows|)
  }

  function MonthStatOf(frame: seq<Record>, month: Option<string>, parse: string -> Option<real>,
                       monthOf: Cell -> Result<Option<string>, string>): MonthStat
  {
    var rows := OfMonth(frame, month, monthOf);
    MonthStat(FlowSum(rows, "支出", parse), FlowSum(rows, "收入", parse))
  }

  /** `s` holds the statistics of `data`: the two totals, for every non-NaN category
      its expense, income and row count, for every month label its expense and income
      (only when there is a 交易时间 column), and the number of rows. */
  ghost predicate IsStatsOf(s: Stats, data: seq<Record>, parse: string -> Option<real>,
                            monthOf: Cell -> Result<Option<string>, string>)
  {
    var frame := ToFrame(data);
    && s.totalExpense == FlowSum(frame, "支出", parse)
    && s.totalIncome == FlowSum(frame, "收入", parse)
    && s.recordCount == |data|
    && (forall c :: c in s.categoryStats <==> c in CategoryColumn(frame) && !c.NaN?)
    && (forall c :: c in s.categoryStats ==> s.categoryStats[c] == CategoryStatOf(frame, c, parse))
    && (TimeKey !in Columns(data) ==> s.monthlyStats == map[])
    && (TimeKey in Columns(data) ==>
          && TimesParse(frame, monthOf)
          && (forall m :: m in s.monthlyStats <==> m in MonthColumn(frame, monthOf))
          && (forall m :: m in s.monthlyStats ==> s.monthlyStats[m] == MonthStatOf(frame, m, parse, monthOf)))
  }

  /** `calculate_stats` (lines 59-117). Without a 收/支 or 金额(元) column the frame
      lookups of line 76 raise, and a time that does not parse makes line 100 raise;
      otherwise the statistics of the records. */
  method CalculateStats(data: seq<Record>, parse: string -> Option<real>, monthOf: Cell -> Result<Option<string>, string>)
    returns (r: Result<Stats, string>)
    ensures var columns := Columns(data);
            r.Err? <==> FlowKey !in columns || AmountKey !in columns || !TimesParse(ToFrame(data), monthOf)
    ensures r.Ok? ==> IsStatsOf(r.value, data, parse, monthOf)
  {
    var columns := Columns(data);
    if FlowKey !in columns || AmountKey !in columns {
      return Err("KeyError");
    }
    var frame := ToFrame(data);
    var categoryStats: map<Cell, CategoryStat> := map[];
    if CategoryKey in columns {
      categoryStats := CategoryTable(frame, parse);
    } else {
      NoCategoryColumn(data);
    }
    var monthlyStats: map<Option<string>, MonthStat> := map[];
    if TimeKey in columns {
      var months := MonthTable(frame, parse, monthOf);
      if months.Err? {
        return Err(months.error);
      }
      monthlyStats := months.value;
    } else {
      NoTimeColumn(data, monthOf);
    }
    r := Ok(Stats(FlowSum(frame, "支出", parse), FlowSum(frame, "收入", parse), categoryStats, monthlyStats, |data|));
  }

  /** Lines 81-95: one entry per distinct non-NaN category. */
  method CategoryTable(frame: seq<Record>, parse: string -> Option<real>) returns (table: map<Cell, CategoryStat>)
    ensures forall c :: c in table <==> c in CategoryColumn(frame) && !c.NaN?
    ensures forall c :: c in table ==> table[c] == CategoryStatOf(frame, c, parse)
  {
    table := map[];
    var categories := Distinct(CategoryColumn(frame));
    var k := 0;
    while k < |categories|
      invariant 0 <= k <= |categories|
      invariant forall c :: c in table <==> c in categories[..k] && !c.NaN?
      invariant forall c :: c in table ==> table[c] == CategoryStatOf(frame, c, parse)
    {
      var category := categories[k];
      assert categories[..k + 1] == categories[..k] + [category];
      if !category.NaN? {
        table := table[category := CategoryStatOf(frame, category, parse)];
      }
      k := k + 1;
    }
    assert categories[..k] == categories;
  }

  /** Lines 100-109: the labels of all times, raising on the first that does not
      parse; then one entry per distinct label, NaN included. */
  method MonthTable(frame: seq<Record>, parse: string -> Option<real>, monthOf: Cell -> Result<Option<string>, string>)
    returns (r: Result<map<Option<string>, MonthStat>, string>)
    ensures r.Err? <==> !TimesParse(frame, monthOf)
    ensures r.Err? ==> exists i :: 0 <= i < |frame| && Month(frame[i], monthOf) == Err(r.error)
    ensures r.Ok? ==> && (forall m :: m in r.value <==> m in MonthColumn(frame, monthOf))
                      && (forall m :: m in r.value ==> r.value[m] == MonthStatOf(frame, m, parse, monthOf))
  {
    var i := 0;
    while i < |frame|
      invariant 0 <= i <= |frame|
      invariant forall j :: 0 <= j < i ==> Month(frame[j], monthOf).Ok?
    {
      var month := Month(frame[i], monthOf);
      if month.Err? {
        return Err(month.error);
      }
      i := i + 1;
    }
    var table := map[];
    var months := Distinct(MonthColumn(frame, monthOf));
    var k := 0;
    while k < |months|
      invariant 0 <= k <= |months|
      invariant forall m :: m in table <==> m in months[..k]
      invariant forall m :: m in table ==> table[m] == MonthStatOf(frame, m, parse, monthOf)
    {
      assert months[..k + 1] == months[..k] + [months[k]];
      table := table[months[k] := MonthStatOf(frame, months[k], parse, monthOf)];
      k := k + 1;
    }
    assert months[..k] == months;
    r := Ok(table);
  }

  /** Without a 交易时间 column every record's label is NaN, so nothing can fail to parse. */
  lemma NoTimeColumn(data: seq<Record>, monthOf: Cell -> Result<Option<string>, string>)
    requires TimeKey !in Columns(data)
    ensures TimesParse(ToFrame(data), monthOf)
  {
    var frame := ToFrame(data);
    forall i | 0 <= i < |frame|
      ensures Month(frame[i], monthOf).Ok?
    {
      assert TimeKey !in frame[i];
    }
  }

  /** The rows with a NaN month label form no slice: `monthly_stats[nan]` has zero
      expense and zero income whatever those rows hold. */
  lemma {:induction false} NaNMonthEmpty(frame: seq<Record>, parse: string -> Option<real>,
                                         monthOf: Cell -> Result<Option<string>, string>)
    ensures OfMonth(frame, None, monthOf) == []
    ensures MonthStatOf(frame, None, parse, monthOf) == MonthStat(0.0, 0.0)
  {
    if frame != [] {
      NaNMonthEmpty(frame[..|frame| - 1], parse, monthOf);
    }
  }

  /** A month's slice holds exactly the records with that label. */
  lemma {:induction false} OfMonthSpec(frame: seq<Record>, month: string, monthOf: Cell -> Result<Option<string>, string>)
    ensures forall r :: r in OfMonth(frame, Some(month), monthOf) <==> r in frame && Month(r, monthOf) == Ok(Some(month))
  {
    if frame != [] {
      OfMonthSpec(frame[..|frame| - 1], month, monthOf);
      assert frame == frame[..|frame| - 1] + [frame[|frame| - 1]];
    }
  }

  /** Without a 类型 column every category cell of the frame is NaN. */
  lemma NoCategoryColumn(data: seq<Record>)
    requires CategoryKey !in Columns(data)
    ensures forall c :: c in CategoryColumn(ToFrame(data)) ==> c.NaN?
  {
    var frame := ToFrame(data);
    forall c | c in CategoryColumn(frame)
      ensures c.NaN?
    {
      var i :| 0 <= i < |frame| && CategoryColumn(frame)[i] == c;
      assert CategoryKey !in frame[i];
    }
  }

  /** A category's row count is the number of times it occurs in the category column. */
  lemma {:induction false} CategoryCountIsOccurrences(frame: seq<Record>, category: Cell)
    requires !category.NaN?
    ensures |OfCategory(frame, category)| == Occurrences(CategoryColumn(frame), category)
  {
    if frame != [] {
      var init := frame[..|frame| - 1];
      CategoryCountIsOccurrences(init, category);
      var column := CategoryColumn(frame);
      assert forall j :: 0 <= j < |init| ==> CategoryColumn(init)[j] == column[j];
      assert column == CategoryColumn(init) + [column[|frame| - 1]];
      assert multiset(column) == multiset(CategoryColumn(init)) + multiset{column[|frame| - 1]};
    }
  }

  /** Every row of a category's slice has that category. */
  lemma {:induction false} OfCategorySpec(frame: seq<Record>, category: Cell)
    requires !category.NaN?
    ensures forall r :: r in OfCategory(frame, category) <==> r in frame && CategoryKey in r && r[CategoryKey] == category
  {
    if frame != [] {
      OfCategorySpec(frame[..|frame| - 1], category);
      assert frame == frame[..|frame| - 1] + [frame[|frame| - 1]];
    }
  }

  /** The outcome of `process_with_ai`. */
  datatype Outcome =
    | ErrorDict(message: string)
    | Passthrough(fields: Record)
    | Processed(records: seq<Record>, stats: Stats)

  /** `process_with_ai` (lines 4-57). An empty list or an empty dict is falsy and
      reports that no bill data was given; a dict with an `error` key is handed back
      unchanged. The truth test of line 15 raises for any DataFrame, and a non-empty
      dict without `error` stays a dict (line 23), which has no `iterrows` (line 30).
      A raising predictor or statistics step propagates as `Err`. */
  method ProcessWithAi(data: BillData, show: real -> string, predict: ((string, string)) -> Result<Prediction, string>,
                       parse: string -> Option<real>, monthOf: Cell -> Result<Option<string>, string>)
    returns (r: Result<Outcome, string>)
    ensures data == Records([]) || data == ErrorReport(map[]) ==> r == Ok(ErrorDict(NoBillData))
    ensures data.ErrorReport? && "error" in data.fields ==> r == Ok(Passthrough(data.fields))
    ensures data.ErrorReport? && data.fields != map[] && "error" !in data.fields ==> r == Err(AttributeError)
    ensures data.Frame? ==> r == Err(ValueError)
    ensures data.Records? && data.rows != [] ==>
              var frame := ToFrame(data.rows);
              && (r.Err? <==>
                    || (exists i :: 0 <= i < |frame| && !Categorised(frame[i]) && predict(Query(frame[i], show)).Err?)
                    || FlowKey !in Columns(data.rows) || AmountKey !in Columns(data.rows)
                    || !TimesParse(frame, monthOf))
              && (r.Ok? ==>
                    && r.value.Processed?
                    && ProcessedFrom(frame, r.value.records, show, predict)
                    && IsStatsOf(r.value.stats, r.value.records, parse, monthOf))
  {
    if data.Frame? {
      return Err(ValueError);
    }
    if data == Records([]) || data == ErrorReport(map[]) {
      return Ok(ErrorDict(NoBillData));
    }
    if data.ErrorReport? {
      if "error" in data.fields {
        return Ok(Passthrough(data.fields));
      }
      return Err(AttributeError);
    }
    var frame := ToFrame(data.rows);
    var processed, _ := ClassifyRecords(frame, show, predict);
    if processed.Err? {
      return Err(processed.error);
    }
    ProcessedColumns(data.rows, processed.value, show, predict, FlowKey);
    ProcessedColumns(data.rows, processed.value, show, predict, AmountKey);
    ProcessedMonths(data.rows, processed.value, show, predict, monthOf);
    var stats := CalculateStats(processed.value, parse, monthOf);
    if stats.Err? {
      return Err(stats.error);
    }
    r := Ok(Processed(processed.value, stats.value));
  }

  /** Classifying adds only the 类型 and 分类置信度 columns: every other column is a
      column of the processed records exactly when it is one of the input's. */
  lemma ProcessedColumns(data: seq<Record>, processed: seq<Record>, show: real -> string,
                         predict: ((string, string)) -> Result<Prediction, string>, k: string)
    requires data != [] && ProcessedFrom(ToFrame(data), processed, show, predict)
    requires k != CategoryKey && k != ConfidenceKey
    ensures k in Columns(processed) <==> k in Columns(data)
  {
    var frame := ToFrame(data);
    if k in Columns(data) {
      assert k in frame[0];
      if !Categorised(frame[0]) {
        ClassifiedSpec(frame[0], predict(Query(frame[0], show)).value);
      }
      assert k in processed[0];
    }
    if k in Columns(processed) {
      var i :| 0 <= i < |processed| && k in processed[i];
      if !Categorised(frame[i]) {
        ClassifiedSpec(frame[i], predict(Query(frame[i], show)).value);
      }
      assert k in frame[i];
    }
  }

  /** Classifying leaves the times alone: each processed record has the month label of
      its input record, so the times of both parse or fail alike. */
  lemma ProcessedMonths(data: seq<Record>, processed: seq<Record>, show: real -> string,
                        predict: ((string, string)) -> Result<Prediction, string>,
                        monthOf: Cell -> Result<Option<string>, string>)
    requires ProcessedFrom(ToFrame(data), processed, show, predict)
    ensures forall i :: 0 <= i < |data| ==> Month(ToFrame(processed)[i], monthOf) == Month(ToFrame(data)[i], monthOf)
    ensures TimesParse(ToFrame(processed), monthOf) <==> TimesParse(ToFrame(data), monthOf)
  {
    forall i | 0 <= i < |data|
      ensures Month(ToFrame(processed)[i], monthOf) == Month(ToFrame(data)[i], monthOf)
    {
      ProcessedMonth(data, processed, show, predict, monthOf, i);
    }
  }

  lemma ProcessedMonth(data: seq<Record>, processed: seq<Record>, show: real -> string,
                       predict: ((string, string)) -> Result<Prediction, string>,
                       monthOf: Cell -> Result<Option<string>, string>, i: int)
    requires ProcessedFrom(ToFrame(data), processed, show, predict)
    requires 0 <= i < |data|
    ensures Month(ToFrame(processed)[i], monthOf) == Month(ToFrame(data)[i], monthOf)
  {
    var rec := ToFrame(data)[i];
    var out := processed[i];
    if !Categorised(rec) {
      ClassifiedSpec(rec, predict(Query(rec, show)).value);
    }
    assert TimeKey in rec ==> TimeKey in out && out[TimeKey] == rec[TimeKey];
    assert TimeKey in out ==> TimeKey in rec;
    var after := ToFrame(processed)[i];
    if TimeKey in rec {
      assert after[TimeKey] == rec[TimeKey];
    } else if TimeKey in after {
      assert after[TimeKey] == NaN;
    }
  }

  /** Every processed record carries a non-empty, non-NaN category. */
  lemma ProcessedAreCategorised(frame: seq<Record>, show: real -> string,
                                predict: ((string, string)) -> Result<Prediction, string>, processed: seq<Record>)
    requires ProcessedFrom(frame, processed, show, predict)
    ensures forall i :: 0 <= i < |processed| ==> Categorised(processed[i])
  {
    forall i | 0 <= i < |processed|
      ensures Categorised(processed[i])
    {
      if !Categorised(frame[i]) {
        ClassifiedSpec(frame[i], predict(Query(frame[i], show)).value);
      }
    }
  }

  /** The reply of `train_model`. */
  datatype TrainOutcome =
    | Trained(message: string, totalRecords: nat, categoryCounts: map<string, nat>)
    | TrainFailed(message: string)

  /** `train_model` (lines 119-151) on the shared vector database: load the dataset on
      top of what is stored and report the collection statistics. `startup` is the
      message of an exception raised while the database is set up; it becomes a
      failure reply instead of propagating. */
  method TrainModel(db: BackendVectorDb.BookkeepingVectorDb, startup: Option<string>, dataset: Option<BackendVectorDb.Table>)
    returns (r: TrainOutcome)
    requires db.Valid()
    modifies db, db.collection
    ensures db.Valid() && db.collection == old(db.collection)
    ensures startup.Some? ==> r == TrainFailed("模型训练失败: " + startup.value) && db.collection.records == old(db.collection.records)
    ensures startup.None? ==>
              && MetadataOf(db.collection.records) == old(MetadataOf(db.collection.records))
                   + (if dataset.None? then [] else BackendVectorDb.TableAdmitted(dataset.value))
              && r.Trained? && r.message == "模型训练成功"
              && r.totalRecords == |db.collection.records|
              && (forall c :: c in r.categoryCounts <==> c in Categories(db.collection.records))
              && (forall c :: c in r.categoryCounts ==> r.categoryCounts[c] == CategoryCount(db.collection.records, c))
  {
    if startup.Some? {
      return TrainFailed("模型训练失败: " + startup.value);
    }
    db.InitializeFromDataset(dataset);
    var total, counts := db.GetCollectionStats();
    r := Trained("模型训练成功", total, counts);
  }
}
