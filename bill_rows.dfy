/** The shapes of a bill row as the formatters, mergers and preprocessors see it.
    Timestamps arrive already parsed (the date parsers are library calls). */
module BillRows {
  import opened Common

  /** A parsed transaction time; `weekday` is pandas' `dayofweek` (Monday = 0). */
  datatype Timestamp = Timestamp(year: nat, month: nat, day: nat, weekday: nat, hour: nat, minute: nat, second: nat)

  predicate ValidTimestamp(t: Timestamp)
  {
    1 <= t.month <= 12 && 1 <= t.day <= 31 && t.weekday <= 6 && t.hour <= 23
    && t.minute <= 59 && t.second <= 59 && t.year <= 9999
  }

  /** A number that orders valid timestamps chronologically; the sort key of the Python mergers. */
  function Instant(t: Timestamp): int
  {
    ((((t.year * 12 + t.month) * 32 + t.day) * 24 + t.hour) * 60 + t.minute) * 60 + t.second
  }

  /** Decimal digits of `n`, left-padded with '0' to at least `width` characters. */
  function Padded(n: nat, width: nat): (r: string)
    ensures forall i :: 0 <= i < |r| ==> '0' <= r[i] <= '9'
    ensures width <= |r|
    decreases if n == 0 then width else n + width
  {
    if n == 0 && width == 0 then []
    else Padded(n / 10, if width == 0 then 0 else width - 1) + [(('0' as int) + n % 10) as char]
  }

  /** `strftime('%Y-%m')`, the month label of the Python formatters and statistics. */
  function MonthLabel(t: Timestamp): string
  {
    Padded(t.year, 4) + "-" + Padded(t.month, 2)
  }

  /** The label of a valid timestamp is seven characters "YYYY-MM". */
  lemma MonthLabelShape(t: Timestamp)
    requires ValidTimestamp(t)
    ensures |MonthLabel(t)| == 7 && MonthLabel(t)[4] == '-'
  {
    PaddedExact(t.year, 4);
    PaddedExact(t.month, 2);
  }

  lemma {:induction false} PaddedExact(n: nat, width: nat)
    requires n < Pow10(width)
    ensures |Padded(n, width)| == width
    decreases width
  {
    if width > 0 {
      PaddedExact(n / 10, width - 1);
    }
  }

  function Pow10(k: nat): nat
  {
    if k == 0 then 1 else 10 * Pow10(k - 1)
  }

  /** The ten names of the `RecordType` enum of src/formatter/types.ts. */
  const RecordTypeNames: seq<string> := ["餐饮", "住房", "交通", "生活", "娱乐", "人情", "交易", "礼物", "旅行", "工资"]

  /** `IBookKeepingRow` of the TypeScript code; `time` is `交易时间.getTime()`. */
  datatype BookKeepingRow = BookKeepingRow(
    time: int,
    category: string,   // 类型
    amount: string,     // 金额(元)
    direction: string,  // 收/支
    payMethod: string,  // 支付方式
    merchant: string,   // 交易对方
    product: string,    // 商品名称
    remark: string      // 备注
  )

  /** A pandas cell: missing (NaN), text, or a number. */
  datatype Cell = NaN | Text(text: string) | Number(x: real)

  /** A row of a pandas frame produced by a Python bill formatter: the parsed
      交易时间 and the other columns by name. */
  datatype FrameRow = FrameRow(time: Timestamp, cells: map<string, Cell>)

  /** A row after `reindex` to the eight merged columns, in this order. */
  datatype MergedRow = MergedRow(
    time: Timestamp, category: Cell, amount: Cell, direction: Cell,
    payMethod: Cell, merchant: Cell, product: Cell, remark: Cell)

  const MergedColumns: seq<string> := ["交易时间", "类型", "金额(元)", "收/支", "支付方式", "交易对方", "商品名称", "备注"]

  function CellOf(row: FrameRow, column: string): Cell
  {
    if column in row.cells then row.cells[column] else NaN
  }

  /** `reindex(columns=column_order)`: the eight columns, a missing one filled with NaN. */
  function Reindex(row: FrameRow): MergedRow
  {
    MergedRow(row.time, CellOf(row, "类型"), CellOf(row, "金额(元)"), CellOf(row, "收/支"),
              CellOf(row, "支付方式"), CellOf(row, "交易对方"), CellOf(row, "商品名称"), CellOf(row, "备注"))
  }
}
