/** The TypeScript bill formatters: `aliPayFormatter` of src/formatter/aliPayFormatter.ts
    and `wechatPayFormatter` of src/formatter/wechatPayFormatter.ts (the copy in
    src/frontend/src/utils/formatter/wechatPayFormatter.ts transforms rows the same
    way). Reading and decoding the file, `parseString`/`parseStream` and `new Date`
    are parameters. */
module TsFormatters {
  import opened Common
  import opened BillRows
  import opened TextSplit
  import opened BillLines

  /** The fields of `IAlipayBillRow` the transform reads. */
  datatype AlipayBillRow = AlipayBillRow(
    created: string,    // 交易创建时间
    merchant: string,   // 交易对方
    product: string,    // 商品名称
    amount: string,     // 金额（元）
    direction: string,  // 收/支
    remark: string)     // 备注

  /** The fields of `IWechatBillRow` the transform reads. */
  datatype WechatBillRow = WechatBillRow(
    time: string,       // 交易时间
    merchant: string,   // 交易对方
    product: string,    // 商品
    direction: string,  // 收/支
    amount: string,     // 金额(元)
    payMethod: string,  // 支付方式
    remark: string)     // 备注

  /** The row transform of src/formatter/aliPayFormatter.ts (lines 41-53). */
  function AlipayRow(row: AlipayBillRow, parseDate: string -> int): (r: BookKeepingRow)
    ensures r.category == "" && r.payMethod == "支付宝"
    ensures r.direction == "/" <==> row.direction in {"不计收支", "/"}
    ensures row.direction != "不计收支" ==> r.direction == row.direction
    ensures r.amount == row.amount && r.merchant == row.merchant && r.product == row.product && r.remark == row.remark
    ensures r.time == parseDate(row.created)
  {
    BookKeepingRow(parseDate(row.created), "", row.amount,
                   if row.direction == "不计收支" then "/" else row.direction,
                   "支付宝", row.merchant, row.product, row.remark)
  }

  /** The row transform of src/formatter/wechatPayFormatter.ts (lines 19-31). */
  function WechatRow(row: WechatBillRow, parseDate: string -> int): (r: BookKeepingRow)
    ensures r.category == ""
    ensures '¥' !in r.amount
    ensures r.payMethod == "亲属卡" <==> row.payMethod == "亲属卡"
    ensures r.payMethod != "亲属卡" ==> r.payMethod == "微信支付"
    ensures r.remark == (if row.remark == "/" then "" else row.remark)
    ensures r.product == row.product && r.direction == row.direction && r.merchant == row.merchant
    ensures r.time == parseDate(row.time)
  {
    RemoveCharSpec(row.amount, '¥');
    BookKeepingRow(parseDate(row.time), "", RemoveChar(row.amount, '¥'), row.direction,
                   if row.payMethod == "亲属卡" then "亲属卡" else "微信支付",
                   row.merchant, row.product, if row.remark == "/" then "" else row.remark)
  }

  /** The amount keeps every character other than '¥', in order: cut anywhere, each
      side loses its '¥' on its own. An amount without '¥' is copied unchanged, and a
      leading '¥' is dropped from one that has no other. */
  lemma WechatAmount(row: WechatBillRow, parseDate: string -> int)
    ensures forall c :: c != '¥' ==> multiset(WechatRow(row, parseDate).amount)[c] == multiset(row.amount)[c]
    ensures forall k :: 0 <= k <= |row.amount| ==>
              WechatRow(row, parseDate).amount == RemoveChar(row.amount[..k], '¥') + RemoveChar(row.amount[k..], '¥')
    ensures '¥' !in row.amount ==> WechatRow(row, parseDate).amount == row.amount
    ensures row.amount != [] && row.amount[0] == '¥' && '¥' !in row.amount[1..] ==>
              WechatRow(row, parseDate).amount == row.amount[1..]
  {
    RemoveCharSpec(row.amount, '¥');
    if '¥' !in row.amount {
      RemoveCharAbsent(row.amount, '¥');
    }
    forall k | 0 <= k <= |row.amount|
      ensures RemoveChar(row.amount, '¥') == RemoveChar(row.amount[..k], '¥') + RemoveChar(row.amount[k..], '¥')
    {
      RemoveCharSplit(row.amount, '¥', k);
    }
    if row.amount != [] && row.amount[0] == '¥' && '¥' !in row.amount[1..] {
      RemoveCharAbsent(row.amount[1..], '¥');
    }
  }

  /** `wechatPayFormatter` (lines 6-36): every parsed row, transformed, pushed in parse
      order. */
  method WechatPayFormatter(parsed: seq<WechatBillRow>, parseDate: string -> int) returns (rows: seq<BookKeepingRow>)
    ensures |rows| == |parsed|
    ensures forall i :: 0 <= i < |parsed| ==> rows[i] == WechatRow(parsed[i], parseDate)
  {
    rows := [];
    var i := 0;
    while i < |parsed|
      invariant 0 <= i <= |parsed|
      invariant |rows| == i && forall j :: 0 <= j < i ==> rows[j] == WechatRow(parsed[j], parseDate)
    {
      rows := rows + [WechatRow(parsed[i], parseDate)];
      i := i + 1;
    }
  }

  /** The CSV text the Alipay formatter hands to the parser (lines 13-33): the lines
      split on "\n", the divider toggle, whitespace before commas removed with the
      JavaScript `\s`, and the kept lines glued with no separator. */
  function AlipayTable(text: string): string
  {
    var kept := Toggled(SplitOn(text, '\n'), false);
    Concat(seq(|kept|, k requires 0 <= k < |kept| => DropSpaceBeforeComma(kept[k], IsJsSpace)))
  }

  /** `aliPayFormatter` (lines 6-62): the table text, parsed, each row transformed and
      pushed in parse order. */
  method AliPayFormatter(text: string, parseString: string -> seq<AlipayBillRow>, parseDate: string -> int)
    returns (rows: seq<BookKeepingRow>)
    ensures var parsed := parseString(AlipayTable(text));
            && |rows| == |parsed|
            && forall i :: 0 <= i < |parsed| ==> rows[i] == AlipayRow(parsed[i], parseDate)
  {
    var lines := SplitOn(text, '\n');
    var kept := ToggleFilter(lines);
    var cleaned: seq<string> := [];
    var k := 0;
    while k < |kept|
      invariant 0 <= k <= |kept|
      invariant |cleaned| == k && forall j :: 0 <= j < k ==> cleaned[j] == DropSpaceBeforeComma(kept[j], IsJsSpace)
    {
      cleaned := cleaned + [DropSpaceBeforeComma(kept[k], IsJsSpace)];
      k := k + 1;
    }
    assert cleaned == seq(|kept|, k requires 0 <= k < |kept| => DropSpaceBeforeComma(kept[k], IsJsSpace));
    var csvTableString := Concat(cleaned);
    assert csvTableString == AlipayTable(text);
    var parsed := parseString(csvTableString);
    rows := [];
    var i := 0;
    while i < |parsed|
      invariant 0 <= i <= |parsed|
      invariant |rows| == i && forall j :: 0 <= j < i ==> rows[j] == AlipayRow(parsed[j], parseDate)
    {
      rows := rows + [AlipayRow(parsed[i], parseDate)];
      i := i + 1;
    }
  }

  /** Every kept line is a line of the input. */
  lemma {:induction false} ToggledSubset(lines: seq<string>, on: bool)
    ensures forall l :: l in Toggled(lines, on) ==> l in lines
  {
    if lines != [] {
      ToggledSubset(lines[1..], on);
      ToggledSubset(lines[1..], !on);
    }
  }

  /** The cleanup only removes characters. */
  lemma {:induction false} DropSpaceBeforeCommaChars(s: string, isSpace: char -> bool)
    ensures forall c :: c in DropSpaceBeforeComma(s, isSpace) ==> c in s
    decreases |s|
  {
    if s == [] {
      return;
    }
    if !isSpace(s[0]) {
      DropSpaceBeforeCommaChars(s[1..], isSpace);
      return;
    }
    var n := SpaceRun(s, isSpace);
    if n < |s| && s[n] == ',' {
      DropSpaceBeforeCommaChars(s[n + 1..], isSpace);
      assert forall c :: c in s[n + 1..] ==> c in s;
    } else {
      DropSpaceBeforeCommaChars(s[n..], isSpace);
      assert forall c :: c in s[n..] ==> c in s;
      assert forall c :: c in s[..n] ==> c in s;
    }
  }

  lemma {:induction false} ConcatChars(parts: seq<string>, c: char)
    requires forall k :: 0 <= k < |parts| ==> c !in parts[k]
    ensures c !in Concat(parts)
  {
    if parts != [] {
      ConcatChars(parts[1..], c);
    }
  }

  /** Gluing the kept lines with "" leaves no "\n" in the table, however many lines the
      export had: the parser sees only the carriage returns of CRLF lines as row
      breaks. */
  lemma AlipayTableHasNoNewline(text: string)
    ensures '\n' !in AlipayTable(text)
  {
    var lines := SplitOn(text, '\n');
    var kept := Toggled(lines, false);
    SplitOnSpec(text, '\n');
    ToggledSubset(lines, false);
    var cleaned := seq(|kept|, k requires 0 <= k < |kept| => DropSpaceBeforeComma(kept[k], IsJsSpace));
    forall k | 0 <= k < |cleaned|
      ensures '\n' !in cleaned[k]
    {
      DropSpaceBeforeCommaChars(kept[k], IsJsSpace);
      assert kept[k] in lines;
    }
    ConcatChars(cleaned, '\n');
  }
}
