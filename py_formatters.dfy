/** The Python bill formatters: `alipay_format` of src/lib/alipay_formatter.py and of
    src/python/lib/alipay_formatter.py, and `wechat_format` of
    src/backend/utils/formatter/wechat_formatter.py and of
    src/python/utils/formatter/wechat_formatter.py. Reading the file, `csv.DictReader`,
    `pd.to_datetime` and `pd.to_numeric` are parameters: the lines of the file, a
    parser from the kept lines to header-keyed rows, and two parsers that fail with
    `None`. */
module PyFormatters {
  import opened Common
  import opened BillRows
  import opened BillLines

  /** One row from `csv.DictReader`: the value under each header field. */
  type CsvRow = map<string, string>

  const KeyError := "KeyError"
  const ValueError := "ValueError"

  /** The columns of `pd.DataFrame` over the rows: every key of any row. */
  function Header(rows: seq<CsvRow>): (h: set<string>)
    ensures forall k :: k in h <==> exists i :: 0 <= i < |rows| && k in rows[i]
  {
    if rows == [] then {}
    else
      var h := rows[0].Keys + Header(rows[1..]);
      assert forall i :: 1 <= i < |rows| ==> rows[i] == rows[1..][i - 1];
      h
  }

  /** `.loc[:, fields]` succeeds when every field is a column. */
  predicate HasColumns(rows: seq<CsvRow>, fields: seq<string>)
  {
    forall f :: f in fields ==> f in Header(rows)
  }

  function Field(row: CsvRow, key: string): Option<string>
  {
    if key in row then Some(row[key]) else None
  }

  function TextCell(v: Option<string>): Cell
  {
    if v.Some? then Text(v.value) else NaN
  }

  /** `.replace('不计收支', '/')` on the 收/支 column. */
  function Direction(v: Option<string>): (c: Cell)
    ensures c == Text("/") <==> v == Some("不计收支") || v == Some("/")
    ensures v.Some? && v.value != "不计收支" ==> c == Text(v.value)
  {
    if v == Some("不计收支") then Text("/") else TextCell(v)
  }

  /** `pd.to_numeric(..., errors="coerce")`: NaN where the parser fails. */
  function Coerced(x: Option<real>): Cell
  {
    if x.Some? then Number(x.value) else NaN
  }

  /** Apply a fallible row conversion to every row; the first failure fails all. */
  function Traverse<T, U>(s: seq<T>, f: T -> Result<U, string>): (r: Result<seq<U>, string>)
    ensures r.Ok? <==> forall i :: 0 <= i < |s| ==> f(s[i]).Ok?
    ensures r.Ok? ==> |r.value| == |s| && forall i :: 0 <= i < |s| ==> r.value[i] == f(s[i]).value
  {
    if s == [] then Ok([])
    else
      var head := f(s[0]);
      if head.Err? then Err(head.error)
      else
        var rest := Traverse(s[1..], f);
        assert forall i :: 1 <= i < |s| ==> s[i] == s[1..][i - 1];
        if rest.Err? then Err(rest.error) else Ok([head.value] + rest.value)
  }

  // ---------------------------------------------------------------------------
  // src/lib/alipay_formatter.py

  const AlipayFields: seq<string> := ["交易创建时间", "商品名称", "交易对方", "收/支", "金额（元）"]

  /** The columns of a row of this formatter besides 交易时间. */
  const LibAlipayColumns: set<string> := {"商品名称", "交易对方", "收/支", "金额(元)", "类型", "交易来源", "备注", "月度", "开销"}

  /** `process_amount` (lines 39-44): income as it is, anything else negated. */
  function Expense(amount: real, direction: Cell): real
  {
    if direction == Text("收入") then amount else -amount
  }

  /** One row of lines 26-46: strict time and amount parsing, 收/支 with 不计收支 as
      "/", 类型 and 备注 NaN, 交易来源 支付宝, the month label and the signed 开销. */
  function LibAlipayRow(row: CsvRow, parseTime: string -> Option<Timestamp>, parseNumber: string -> Option<real>): Result<FrameRow, string>
  {
    var time := Field(row, "交易创建时间");
    var amount := Field(row, "金额（元）");
    if time.None? || parseTime(time.value).None? then Err(ValueError)
    else if amount.None? || parseNumber(amount.value).None? then Err(ValueError)
    else
      var t := parseTime(time.value).value;
      var a := parseNumber(amount.value).value;
      var direction := Direction(Field(row, "收/支"));
      Ok(FrameRow(t, map[
        "商品名称" := TextCell(Field(row, "商品名称")),
        "交易对方" := TextCell(Field(row, "交易对方")),
        "收/支" := direction,
        "金额(元)" := Number(a),
        "类型" := NaN,
        "交易来源" := Text("支付宝"),
        "备注" := NaN,
        "月度" := Text(MonthLabel(t)),
        "开销" := Number(Expense(a, direction))]))
  }

  /** A row converts exactly when its time and amount both parse; it then has the nine
      columns, the parsed amount, an 开销 equal to the amount for income and to its
      negation otherwise (so for a "/" row too), and the month of its own time. */
  lemma LibAlipayRowSpec(row: CsvRow, parseTime: string -> Option<Timestamp>, parseNumber: string -> Option<real>)
    ensures var r := LibAlipayRow(row, parseTime, parseNumber);
            var time := Field(row, "交易创建时间");
            var amount := Field(row, "金额（元）");
            && (r.Ok? <==> time.Some? && parseTime(time.value).Some? && amount.Some? && parseNumber(amount.value).Some?)
            && (r.Ok? ==>
                  var a := parseNumber(amount.value).value;
                  var cells := r.value.cells;
                  && r.value.time == parseTime(time.value).value
                  && cells.Keys == LibAlipayColumns
                  && cells["金额(元)"] == Number(a)
                  && (Field(row, "收/支") == Some("收入") ==> cells["开销"] == Number(a))
                  && (Field(row, "收/支") != Some("收入") ==> cells["开销"] == Number(-a))
                  && (cells["收/支"] == Text("/") <==> Field(row, "收/支") in {Some("不计收支"), Some("/")})
                  && cells["月度"] == Text(MonthLabel(r.value.time))
                  && cells["类型"] == NaN && cells["备注"] == NaN)
  {
  }

  /** Lines 24-48 after the line window: the fields must all be columns, then every
      row must convert. */
  function LibAlipayFrame(rows: seq<CsvRow>, parseTime: string -> Option<Timestamp>, parseNumber: string -> Option<real>): (r: Result<seq<FrameRow>, string>)
    ensures !HasColumns(rows, AlipayFields) ==> r == Err(KeyError)
    ensures r.Ok? <==> HasColumns(rows, AlipayFields) && forall i :: 0 <= i < |rows| ==> LibAlipayRow(rows[i], parseTime, parseNumber).Ok?
    ensures r.Ok? ==> |r.value| == |rows| && forall i :: 0 <= i < |rows| ==> r.value[i] == LibAlipayRow(rows[i], parseTime, parseNumber).value
  {
    if !HasColumns(rows, AlipayFields) then Err(KeyError)
    else Traverse(rows, row => LibAlipayRow(row, parseTime, parseNumber))
  }

  /** `alipay_format` of src/lib/alipay_formatter.py (lines 3-48). */
  method LibAlipayFormat(lines: seq<string>, parseCsv: seq<string> -> seq<CsvRow>,
                         parseTime: string -> Option<Timestamp>, parseNumber: string -> Option<real>)
    returns (r: Result<seq<FrameRow>, string>)
    ensures r == LibAlipayFrame(parseCsv(AlipayWindow(lines)), parseTime, parseNumber)
  {
    var csvdata := AlipayLines(lines);
    r := LibAlipayFrame(parseCsv(csvdata), parseTime, parseNumber);
  }

  /** A file with no data row fails: the frame has no columns, so the field selection
      raises. */
  lemma LibAlipayNoRows(parseTime: string -> Option<Timestamp>, parseNumber: string -> Option<real>)
    ensures LibAlipayFrame([], parseTime, parseNumber) == Err(KeyError)
  {
    assert "交易创建时间" in AlipayFields;
  }

  // ---------------------------------------------------------------------------
  // src/python/lib/alipay_formatter.py

  const PyAlipayColumns: set<string> := {"商品名称", "交易对方", "收/支", "金额(元)", "类型", "支付方式", "备注"}

  /** One row of lines 26-36: strict time parsing, the amount coerced to NaN, 支付方式
      支付宝, 类型 and 备注 NaN, 收/支 with 不计收支 as "/". */
  function PyAlipayRow(row: CsvRow, parseTime: string -> Option<Timestamp>, parseNumber: string -> Option<real>): Result<FrameRow, string>
  {
    var time := Field(row, "交易创建时间");
    var amount := Field(row, "金额（元）");
    if time.None? || parseTime(time.value).None? then Err(ValueError)
    else
      Ok(FrameRow(parseTime(time.value).value, map[
        "商品名称" := TextCell(Field(row, "商品名称")),
        "交易对方" := TextCell(Field(row, "交易对方")),
        "收/支" := Direction(Field(row, "收/支")),
        "金额(元)" := Coerced(if amount.Some? then parseNumber(amount.value) else None),
        "类型" := NaN,
        "支付方式" := Text("支付宝"),
        "备注" := NaN]))
  }

  /** Only the time can fail here; an unreadable amount becomes NaN and a readable
      one its value. The product and merchant are copied, a missing field as NaN, and
      类型 and 备注 are NaN. */
  lemma PyAlipayRowSpec(row: CsvRow, parseTime: string -> Option<Timestamp>, parseNumber: string -> Option<real>)
    ensures var r := PyAlipayRow(row, parseTime, parseNumber);
            var time := Field(row, "交易创建时间");
            var amount := Field(row, "金额（元）");
            && (r.Ok? <==> time.Some? && parseTime(time.value).Some?)
            && (r.Ok? ==>
                  var cells := r.value.cells;
                  && r.value.time == parseTime(time.value).value
                  && cells.Keys == PyAlipayColumns
                  && (cells["金额(元)"] == NaN <==> amount.None? || parseNumber(amount.value).None?)
                  && (amount.Some? && parseNumber(amount.value).Some? ==> cells["金额(元)"] == Number(parseNumber(amount.value).value))
                  && (cells["收/支"] == Text("/") <==> Field(row, "收/支") in {Some("不计收支"), Some("/")})
                  && (Field(row, "收/支").Some? && Field(row, "收/支") != Some("不计收支") ==> cells["收/支"] == Text(row["收/支"]))
                  && (forall k :: k in {"商品名称", "交易对方"} ==>
                        (k in row ==> cells[k] == Text(row[k])) && (k !in row ==> cells[k] == NaN))
                  && cells["类型"] == NaN && cells["备注"] == NaN
                  && cells["支付方式"] == Text("支付宝"))
  {
  }

  function PyAlipayFrame(rows: seq<CsvRow>, parseTime: string -> Option<Timestamp>, parseNumber: string -> Option<real>): (r: Result<seq<FrameRow>, string>)
    ensures !HasColumns(rows, AlipayFields) ==> r == Err(KeyError)
    ensures r.Ok? <==> HasColumns(rows, AlipayFields) && forall i :: 0 <= i < |rows| ==> PyAlipayRow(rows[i], parseTime, parseNumber).Ok?
    ensures r.Ok? ==> |r.value| == |rows| && forall i :: 0 <= i < |rows| ==> r.value[i] == PyAlipayRow(rows[i], parseTime, parseNumber).value
  {
    if !HasColumns(rows, AlipayFields) then Err(KeyError)
    else Traverse(rows, row => PyAlipayRow(row, parseTime, parseNumber))
  }

  /** `alipay_format` of src/python/lib/alipay_formatter.py (lines 3-38). */
  method PyAlipayFormat(lines: seq<string>, parseCsv: seq<string> -> seq<CsvRow>,
                        parseTime: string -> Option<Timestamp>, parseNumber: string -> Option<real>)
    returns (r: Result<seq<FrameRow>, string>)
    ensures r == PyAlipayFrame(parseCsv(AlipayWindow(lines)), parseTime, parseNumber)
  {
    var csvdata := AlipayLines(lines);
    r := PyAlipayFrame(parseCsv(csvdata), parseTime, parseNumber);
  }

  // ---------------------------------------------------------------------------
  // wechat_format, both copies

  const WechatFields: seq<string> := ["交易时间", "商品", "交易对方", "收/支", "金额(元)"]

  /** One row: 商品 renamed to 商品名称, strict time parsing, the amount read after
      removing every '¥' and coerced to NaN, 支付方式 微信支付, 类型 and 备注 NaN. */
  function WechatRow(row: CsvRow, parseTime: string -> Option<Timestamp>, parseNumber: string -> Option<real>): Result<FrameRow, string>
  {
    var time := Field(row, "交易时间");
    var amount := Field(row, "金额(元)");
    if time.None? || parseTime(time.value).None? then Err(ValueError)
    else
      Ok(FrameRow(parseTime(time.value).value, map[
        "商品名称" := TextCell(Field(row, "商品")),
        "交易对方" := TextCell(Field(row, "交易对方")),
        "收/支" := TextCell(Field(row, "收/支")),
        "金额(元)" := Coerced(if amount.Some? then parseNumber(RemoveChar(amount.value, '¥')) else None),
        "类型" := NaN,
        "支付方式" := Text("微信支付"),
        "备注" := NaN]))
  }

  /** Only the time can fail. The renamed product column carries the 商品 field, the
      merchant and the 收/支 text are kept as they are (a missing field as NaN), the
      amount is read from text that holds no '¥' and is NaN when that does not parse,
      and 类型 and 备注 are NaN. */
  lemma WechatRowSpec(row: CsvRow, parseTime: string -> Option<Timestamp>, parseNumber: string -> Option<real>)
    ensures var r := WechatRow(row, parseTime, parseNumber);
            var time := Field(row, "交易时间");
            var amount := Field(row, "金额(元)");
            && (r.Ok? <==> time.Some? && parseTime(time.value).Some?)
            && (r.Ok? ==>
                  var cells := r.value.cells;
                  && r.value.time == parseTime(time.value).value
                  && cells.Keys == PyAlipayColumns
                  && ("商品" in row ==> cells["商品名称"] == Text(row["商品"]))
                  && ("商品" !in row ==> cells["商品名称"] == NaN)
                  && (forall k :: k in {"交易对方", "收/支"} ==>
                        (k in row ==> cells[k] == Text(row[k])) && (k !in row ==> cells[k] == NaN))
                  && (cells["金额(元)"] == NaN <==> amount.None? || parseNumber(RemoveChar(amount.value, '¥')).None?)
                  && (amount.Some? && parseNumber(RemoveChar(amount.value, '¥')).Some? ==>
                        cells["金额(元)"] == Number(parseNumber(RemoveChar(amount.value, '¥')).value))
                  && cells["类型"] == NaN && cells["备注"] == NaN
                  && cells["支付方式"] == Text("微信支付"))
    ensures forall a :: '¥' !in RemoveChar(a, '¥')
  {
    forall a
      ensures '¥' !in RemoveChar(a, '¥')
    {
      RemoveCharSpec(a, '¥');
    }
  }

  function WechatFrame(rows: seq<CsvRow>, parseTime: string -> Option<Timestamp>, parseNumber: string -> Option<real>): (r: Result<seq<FrameRow>, string>)
    ensures !HasColumns(rows, WechatFields) ==> r == Err(KeyError)
    ensures r.Ok? <==> HasColumns(rows, WechatFields) && forall i :: 0 <= i < |rows| ==> WechatRow(rows[i], parseTime, parseNumber).Ok?
    ensures r.Ok? ==> |r.value| == |rows| && forall i :: 0 <= i < |rows| ==> r.value[i] == WechatRow(rows[i], parseTime, parseNumber).value
  {
    if !HasColumns(rows, WechatFields) then Err(KeyError)
    else Traverse(rows, row => WechatRow(row, parseTime, parseNumber))
  }

  /** `wechat_format` of src/python/utils/formatter/wechat_formatter.py (lines 5-27):
      a failure propagates. */
  method PyWechatFormat(lines: seq<string>, parseCsv: seq<string> -> seq<CsvRow>,
                        parseTime: string -> Option<Timestamp>, parseNumber: string -> Option<real>)
    returns (r: Result<seq<FrameRow>, string>)
    ensures r == WechatFrame(parseCsv(WechatWindow(lines)), parseTime, parseNumber)
  {
    var csvdata := WechatLines(lines);
    r := WechatFrame(parseCsv(csvdata), parseTime, parseNumber);
  }

  /** `wechat_format` of src/backend/utils/formatter/wechat_formatter.py (lines 5-41):
      any failure is caught and gives the empty frame, so the call never fails. */
  method BackendWechatFormat(lines: seq<string>, parseCsv: seq<string> -> seq<CsvRow>,
                             parseTime: string -> Option<Timestamp>, parseNumber: string -> Option<real>)
    returns (rows: seq<FrameRow>)
    ensures var frame := WechatFrame(parseCsv(WechatWindow(lines)), parseTime, parseNumber);
            && (frame.Ok? ==> rows == frame.value)
            && (frame.Err? ==> rows == [])
  {
    var csvdata := WechatLines(lines);
    var frame := WechatFrame(parseCsv(csvdata), parseTime, parseNumber);
    if frame.Err? {
      return [];
    }
    rows := frame.value;
  }
}
