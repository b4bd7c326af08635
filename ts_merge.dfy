/** Collecting bookkeeping rows in TypeScript: the two `formatBillRecords` entry
    points, `formatBillToCsv`, the upload checks and the naive `parseCSV` of the web
    front end, and `processTransactions` / `handleFileExport`. The bill formatters
    (which read files) are parameters; `Array.prototype.sort` is stable, so the
    stable `SortBy` is its model. */
module TsMerge {
  import opened Common
  import opened BillRows
  import opened Sorting
  import opened TextSplit

  /** The comparator key: `交易时间.getTime()`. */
  function RowTime(row: BookKeepingRow): int
  {
    row.time
  }

  /** `[...aliPayRecords, ...wechatPayRecords].sort(by time)`. */
  function MergeRecords(alipay: seq<BookKeepingRow>, wechat: seq<BookKeepingRow>): seq<BookKeepingRow>
  {
    SortBy(alipay + wechat, RowTime)
  }

  /** The merge is sorted by time, a permutation of both inputs, and on equal times
      keeps Alipay rows before WeChat rows, each in its own order. */
  lemma MergeRecordsSpec(alipay: seq<BookKeepingRow>, wechat: seq<BookKeepingRow>)
    ensures var r := MergeRecords(alipay, wechat);
            && SortedBy(r, RowTime)
            && multiset(r) == multiset(alipay) + multiset(wechat)
            && |r| == |alipay| + |wechat|
            && forall t :: WithKey(r, RowTime, t) == WithKey(alipay, RowTime, t) + WithKey(wechat, RowTime, t)
  {
    SortBySpec(alipay + wechat, RowTime);
    SortByElements(alipay + wechat, RowTime);
    forall t
      ensures WithKey(MergeRecords(alipay, wechat), RowTime, t) == WithKey(alipay, RowTime, t) + WithKey(wechat, RowTime, t)
    {
      SortByConcatTies(alipay, wechat, RowTime, t);
    }
  }

  /** The records of one source: none when its path is falsy, otherwise the
      formatter's outcome (a rejection propagates). */
  function SourceRecords(path: Option<string>, formatter: string -> Result<seq<BookKeepingRow>, string>): Result<seq<BookKeepingRow>, string>
  {
    if path.None? || path.value == "" then Ok([]) else formatter(path.value)
  }

  /** `formatBillRecords` of src/typescript/formatter/index.ts (lines 10-31); the
      configured paths are arguments. */
  function FormatBillRecords(alipayPath: Option<string>, wechatPath: Option<string>,
                             alipayFormatter: string -> Result<seq<BookKeepingRow>, string>,
                             wechatFormatter: string -> Result<seq<BookKeepingRow>, string>): (r: Result<seq<BookKeepingRow>, string>)
    ensures var a := SourceRecords(alipayPath, alipayFormatter);
            var w := SourceRecords(wechatPath, wechatFormatter);
            && (r.Ok? <==> a.Ok? && w.Ok?)
            && (r.Ok? ==> r.value == MergeRecords(a.value, w.value))
            && (a.Err? ==> r == Err(a.error))
  {
    var a := SourceRecords(alipayPath, alipayFormatter);
    if a.Err? then Err(a.error)
    else
      var w := SourceRecords(wechatPath, wechatFormatter);
      if w.Err? then Err(w.error) else Ok(MergeRecords(a.value, w.value))
  }

  /** A falsy path reads nothing from that source. */
  lemma FormatBillRecordsSkipsFalsyPath(wechatPath: Option<string>,
                                        alipayFormatter: string -> Result<seq<BookKeepingRow>, string>,
                                        wechatFormatter: string -> Result<seq<BookKeepingRow>, string>)
    requires wechatPath.None? || wechatPath.value == "" || wechatFormatter(wechatPath.value).Ok?
    ensures var w := SourceRecords(wechatPath, wechatFormatter);
            var r := FormatBillRecords(None, wechatPath, alipayFormatter, wechatFormatter);
            && r.Ok? && multiset(r.value) == multiset(w.value)
  {
    MergeRecordsSpec([], SourceRecords(wechatPath, wechatFormatter).value);
  }

  /** A row as handed to the CSV writer: its time replaced by the locale string. */
  datatype WrittenRow = WrittenRow(time: string, row: BookKeepingRow)

  /** `formatBillToCsv` of src/formatter/index.ts (lines 8-40): the same merge, then
      every record, in merged order, to the writer with its time as text. The stream
      itself is not modelled. */
  function FormatBillToCsv(alipayPath: Option<string>, wechatPath: Option<string>,
                           alipayFormatter: string -> Result<seq<BookKeepingRow>, string>,
                           wechatFormatter: string -> Result<seq<BookKeepingRow>, string>,
                           localeString: int -> string): (r: Result<seq<WrittenRow>, string>)
    ensures var m := FormatBillRecords(alipayPath, wechatPath, alipayFormatter, wechatFormatter);
            && (r.Ok? <==> m.Ok?)
            && (r.Ok? ==>
                  && |r.value| == |m.value|
                  && (forall i :: 0 <= i < |r.value| ==>
                        r.value[i].row == m.value[i] && r.value[i].time == localeString(m.value[i].time)))
  {
    var m := FormatBillRecords(alipayPath, wechatPath, alipayFormatter, wechatFormatter);
    if m.Err? then Err(m.error)
    else Ok(seq(|m.value|, i requires 0 <= i < |m.value| => WrittenRow(localeString(m.value[i].time), m.value[i])))
  }

  // ---------------------------------------------------------------------------
  // The web front end: src/frontend/src/utils/formatter/index.ts

  /** The fields of a browser `File` the checks read. */
  datatype Upload = Upload(name: string, mime: string, size: nat)

  datatype BillKind = Alipay | WechatPay | OtherKind

  const MaxUploadSize: nat := 10 * 1024 * 1024
  const FormatFailure := "账单格式化失败: "

  /** Lines 20-24: "alipay" in the name wins over "微信支付". */
  function DetectKind(name: string): (k: BillKind)
    ensures k == Alipay <==> Contains(name, "alipay")
    ensures k == WechatPay <==> !Contains(name, "alipay") && Contains(name, "微信支付")
  {
    if Contains(name, "alipay") then Alipay
    else if Contains(name, "微信支付") then WechatPay
    else OtherKind
  }

  /** `formatBillRecords(file)` (lines 5-42): no rows for a non-CSV type, a file above
      10 MiB or a name of neither kind; otherwise the matching formatter, whose failure
      is rethrown with the 账单格式化失败 prefix. */
  function FormatUpload(file: Upload,
                        alipayFormatter: Upload -> Result<seq<BookKeepingRow>, string>,
                        wechatFormatter: Upload -> Result<seq<BookKeepingRow>, string>): (r: Result<seq<BookKeepingRow>, string>)
    ensures file.mime != "text/csv" ==> r == Ok([])
    ensures file.size > MaxUploadSize ==> r == Ok([])
    ensures DetectKind(file.name) == OtherKind ==> r == Ok([])
    ensures r.Err? ==> StartsWith(r.error, FormatFailure)
    ensures file.mime == "text/csv" && file.size <= MaxUploadSize && DetectKind(file.name) == Alipay ==>
              (alipayFormatter(file).Ok? ==> r == alipayFormatter(file))
              && (alipayFormatter(file).Err? ==> r == Err(FormatFailure + alipayFormatter(file).error))
    ensures file.mime == "text/csv" && file.size <= MaxUploadSize && DetectKind(file.name) == WechatPay ==>
              (wechatFormatter(file).Ok? ==> r == wechatFormatter(file))
              && (wechatFormatter(file).Err? ==> r == Err(FormatFailure + wechatFormatter(file).error))
  {
    if file.mime != "text/csv" then Ok([])
    else if file.size > MaxUploadSize then Ok([])
    else
      var records := match DetectKind(file.name)
        case Alipay => alipayFormatter(file)
        case WechatPay => wechatFormatter(file)
        case OtherKind => Ok([]);
      if records.Err? then
        assert (FormatFailure + records.error)[..|FormatFailure|] == FormatFailure;
        Err(FormatFailure + records.error)
      else records
  }

  /** Exactly 10 MiB is accepted; one byte more is not. */
  lemma UploadSizeBoundary(name: string, alipayFormatter: Upload -> Result<seq<BookKeepingRow>, string>,
                           wechatFormatter: Upload -> Result<seq<BookKeepingRow>, string>)
    requires Contains(name, "alipay")
    ensures FormatUpload(Upload(name, "text/csv", MaxUploadSize), alipayFormatter, wechatFormatter).Ok?
            <==> alipayFormatter(Upload(name, "text/csv", MaxUploadSize)).Ok?
    ensures FormatUpload(Upload(name, "text/csv", MaxUploadSize + 1), alipayFormatter, wechatFormatter) == Ok([])
  {
  }

  /** `parseCSV` (lines 55-67): lines split on `\r?\n`, each line split on ','. */
  function ParseCsv(text: string): (rows: seq<seq<string>>)
    ensures |rows| == |SplitLines(text)|
    ensures forall k :: 0 <= k < |rows| ==> rows[k] == SplitOn(SplitLines(text)[k], ',')
  {
    var lines := SplitLines(text);
    seq(|lines|, k requires 0 <= k < |lines| => SplitOn(lines[k], ','))
  }

  /** Joining each row with ',' gives back its line; a text ending in a line feed
      ends with the row [""]. There is no quote handling, so a quoted comma splits
      its field. */
  lemma ParseCsvSpec(text: string)
    ensures forall k :: 0 <= k < |ParseCsv(text)| ==> JoinWith(ParseCsv(text)[k], ",") == SplitLines(text)[k]
    ensures text != [] && text[|text| - 1] == '\n' ==> ParseCsv(text)[|ParseCsv(text)| - 1] == [""]
  {
    forall k | 0 <= k < |ParseCsv(text)|
      ensures JoinWith(ParseCsv(text)[k], ",") == SplitLines(text)[k]
    {
      SplitOnSpec(SplitLines(text)[k], ',');
    }
    SplitLinesSpec(text);
  }

  /** A line `a,b` is the row [a, b] whatever `a` and `b` are, so a quoted field
      `"x,y"` comes out as the two fields `"x` and `y"`. */
  lemma ParseCsvIgnoresQuotes(a: string, b: string)
    requires ',' !in a && ',' !in b && '\n' !in a && '\n' !in b
    ensures ParseCsv(a + "," + b) == [[a, b]]
  {
    var line := a + "," + b;
    assert JoinWith([a, b], [',']) == line;
    SplitOnJoin([a, b], ',');
    assert '\n' !in line by {
      assert forall i :: 0 <= i < |line| ==> line[i] == (if i < |a| then a[i] else if i == |a| then ',' else b[i - |a| - 1]);
    }
    IndexOfAbsent(line, '\n', []);
    assert line + [] == line;
  }

  // ---------------------------------------------------------------------------
  // src/frontend/src/utils/processData.ts

  /** The rows of the files whose formatting did not throw, file after file. */
  function Collected(files: seq<Upload>, alipayFormatter: Upload -> Result<seq<BookKeepingRow>, string>,
                     wechatFormatter: Upload -> Result<seq<BookKeepingRow>, string>): seq<BookKeepingRow>
  {
    if files == [] then []
    else
      var outcome := FormatUpload(files[|files| - 1], alipayFormatter, wechatFormatter);
      Collected(files[..|files| - 1], alipayFormatter, wechatFormatter) + (if outcome.Ok? then outcome.value else [])
  }

  /** `processTransactions` (lines 4-21): every file's rows pushed in file order, a
      throwing file skipped, then a stable sort by time. */
  method ProcessTransactions(files: seq<Upload>, alipayFormatter: Upload -> Result<seq<BookKeepingRow>, string>,
                             wechatFormatter: Upload -> Result<seq<BookKeepingRow>, string>)
    returns (all: seq<BookKeepingRow>)
    ensures var collected := Collected(files, alipayFormatter, wechatFormatter);
            && SortedBy(all, RowTime)
            && multiset(all) == multiset(collected)
            && forall t :: WithKey(all, RowTime, t) == WithKey(collected, RowTime, t)
  {
    all := [];
    var i := 0;
    while i < |files|
      invariant 0 <= i <= |files|
      invariant all == Collected(files[..i], alipayFormatter, wechatFormatter)
    {
      assert files[..i + 1][..i] == files[..i];
      var transactions := FormatUpload(files[i], alipayFormatter, wechatFormatter);
      if transactions.Ok? {
        all := all + transactions.value;
      }
      i := i + 1;
    }
    assert files[..i] == files;
    var collected := all;
    all := SortBy(all, RowTime);
    SortBySpec(collected, RowTime);
  }

  /** The values of a row in the order its object literal declares them. */
  function RowValues(row: BookKeepingRow, dateText: int -> string): seq<string>
  {
    [dateText(row.time), row.category, row.amount, row.direction, row.payMethod, row.merchant, row.product, row.remark]
  }

  /** `handleFileExport`'s CSV text (lines 26-28): values joined by ',' and rows by a
      line feed, nothing escaped; no transactions give the empty text. */
  function ExportCsv(transactions: Option<seq<BookKeepingRow>>, dateText: int -> string): string
  {
    if transactions.None? then ""
    else
      var rows := transactions.value;
      JoinWith(seq(|rows|, i requires 0 <= i < |rows| => JoinWith(RowValues(rows[i], dateText), ",")), "\n")
  }

  /** A value free of separators survives the export. */
  predicate Plain(v: string)
  {
    ',' !in v && '\n' !in v
  }

  /** When no value holds a comma or a line feed, splitting the exported text on line
      feeds and each line on commas gives back every row's eight values. */
  lemma ExportCsvRoundTrip(rows: seq<BookKeepingRow>, dateText: int -> string)
    requires rows != []
    requires forall i :: 0 <= i < |rows| ==> forall v :: v in RowValues(rows[i], dateText) ==> Plain(v)
    ensures var lines := SplitOn(ExportCsv(Some(rows), dateText), '\n');
            && |lines| == |rows|
            && forall i :: 0 <= i < |rows| ==> SplitOn(lines[i], ',') == RowValues(rows[i], dateText)
  {
    var lines := seq(|rows|, i requires 0 <= i < |rows| => JoinWith(RowValues(rows[i], dateText), ","));
    forall i | 0 <= i < |rows|
      ensures '\n' !in lines[i] && SplitOn(lines[i], ',') == RowValues(rows[i], dateText)
    {
      var vs := RowValues(rows[i], dateText);
      assert forall k :: 0 <= k < |vs| ==> vs[k] in vs;
      JoinWithAbsent(vs, ",", '\n');
      SplitOnJoin(vs, ',');
    }
    SplitOnJoin(lines, '\n');
  }

  /** Joining pieces and a separator that all lack `c` gives a text that lacks `c`. */
  lemma {:induction false} JoinWithAbsent(parts: seq<string>, sep: string, c: char)
    requires c !in sep
    requires forall k :: 0 <= k < |parts| ==> c !in parts[k]
    ensures c !in JoinWith(parts, sep)
  {
    if |parts| > 1 {
      JoinWithAbsent(parts[1..], sep, c);
    }
  }
}
