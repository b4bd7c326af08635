/** Merging formatted bills in Python: `parse_file` and `merge_bills` of
    src/backend/services/file_parser.py and `format_and_merge_bills` of
    src/python/utils/formatter/format_and_merge_bills.py. A formatted bill is a
    sequence of frame rows; the formatters themselves and the file system are
    parameters. */
module BillMerge {
  import opened Common
  import opened BillRows
  import opened Sorting

  const UnsupportedFile := "不支持的文件格式或文件内容错误"

  /** `parse_file` (lines 21-43): the Alipay reading if it succeeds with at least one
      row, else the WeChat reading under the same condition, else the error dict.
      A formatter that raises counts as a failure. */
  function ParseFile<R>(alipay: Result<seq<R>, string>, wechat: Result<seq<R>, string>): (r: Result<seq<R>, string>)
    ensures alipay.Ok? && alipay.value != [] ==> r == alipay
    ensures !(alipay.Ok? && alipay.value != []) && wechat.Ok? && wechat.value != [] ==> r == wechat
    ensures r.Err? <==> !(alipay.Ok? && alipay.value != []) && !(wechat.Ok? && wechat.value != [])
    ensures r.Err? ==> r.error == UnsupportedFile
  {
    if alipay.Ok? && |alipay.value| > 0 then alipay
    else if wechat.Ok? && |wechat.value| > 0 then wechat
    else Err(UnsupportedFile)
  }

  /** A parsed file never yields an empty list of rows. */
  lemma ParseFileNonEmpty<R>(alipay: Result<seq<R>, string>, wechat: Result<seq<R>, string>)
    ensures ParseFile(alipay, wechat).Ok? ==> ParseFile(alipay, wechat).value != []
  {
  }

  /** The sort key of `sort_values(by='交易时间')`. */
  function TimeKey(row: FrameRow): int
  {
    Instant(row.time)
  }

  function MergedTimeKey(row: MergedRow): int
  {
    Instant(row.time)
  }

  /** `df['收/支'] != '/'`: NaN and numbers differ from "/". */
  predicate Counted(row: MergedRow)
  {
    row.direction != Text("/")
  }

  /** `pd.concat` of the bills: their rows, bill after bill. */
  function Flatten(bills: seq<seq<FrameRow>>): seq<FrameRow>
  {
    if bills == [] then [] else bills[0] + Flatten(bills[1..])
  }

  /** The shared tail of both mergers: sort by time, `reindex` to the eight columns,
      drop the rows whose 收/支 is "/". pandas does not fix the order of rows with equal
      times; the model takes the stable order. */
  function SortProjectFilter(rows: seq<FrameRow>): seq<MergedRow>
  {
    Filter(Map(SortBy(rows, TimeKey), Reindex), Counted)
  }

  /** The pipeline is a permutation into ascending time order of the projected rows
      that are counted. */
  lemma SortProjectFilterSpec(rows: seq<FrameRow>)
    ensures var r := SortProjectFilter(rows);
            && SortedBy(r, MergedTimeKey)
            && multiset(r) == multiset(Filter(Map(rows, Reindex), Counted))
            && forall m :: m in r ==> Counted(m)
  {
    MapSortBy(rows, TimeKey, Reindex, MergedTimeKey);
    FilterSortBy(Map(rows, Reindex), MergedTimeKey, Counted);
    SortBySpec(Filter(Map(rows, Reindex), Counted), MergedTimeKey);
    FilterElements(Map(SortBy(rows, TimeKey), Reindex), Counted);
  }

  /** `merge_bills` (lines 50-83): the empty frame when no bill has a row, else the
      pipeline over all rows. */
  function MergeBills(bills: seq<seq<FrameRow>>): seq<MergedRow>
  {
    if Flatten(bills) == [] then [] else SortProjectFilter(Flatten(bills))
  }

  /** The merged bill is sorted by time, holds no "/" row, and is, as a multiset, the
      counted rows of all bills. */
  lemma MergeBillsSpec(bills: seq<seq<FrameRow>>)
    ensures SortedBy(MergeBills(bills), MergedTimeKey)
    ensures forall m :: m in MergeBills(bills) ==> m.direction != Text("/")
    ensures multiset(MergeBills(bills)) == multiset(Filter(Map(Flatten(bills), Reindex), Counted))
  {
    SortProjectFilterSpec(Flatten(bills));
  }

  /** Every projected row keeps its time and reads its columns by name, NaN for a
      missing one. */
  lemma ReindexSpec(row: FrameRow)
    ensures Reindex(row).time == row.time
    ensures "收/支" in row.cells ==> Reindex(row).direction == row.cells["收/支"]
    ensures "类型" !in row.cells ==> Reindex(row).category == NaN
    ensures |MergedColumns| == 8 && MergedColumns[0] == "交易时间"
  {
  }

  /** The bills read by one of the two loops of `format_and_merge_bills` (lines 18-36):
      a missing path is skipped, and so is a file whose formatter raises. */
  function ReadBills(paths: seq<string>, isFile: string -> bool, format: string -> Result<seq<FrameRow>, string>): seq<seq<FrameRow>>
  {
    if paths == [] then []
    else
      var path := paths[|paths| - 1];
      ReadBills(paths[..|paths| - 1], isFile, format)
      + (if isFile(path) && format(path).Ok? then [format(path).value] else [])
  }

  method ReadAll(paths: seq<string>, isFile: string -> bool, format: string -> Result<seq<FrameRow>, string>)
    returns (bills: seq<seq<FrameRow>>)
    ensures bills == ReadBills(paths, isFile, format)
  {
    bills := [];
    var i := 0;
    while i < |paths|
      invariant 0 <= i <= |paths|
      invariant bills == ReadBills(paths[..i], isFile, format)
    {
      assert paths[..i + 1][..i] == paths[..i];
      var path := paths[i];
      if isFile(path) {
        var bill := format(path);
        if bill.Ok? {
          bills := bills + [bill.value];
        }
      }
      i := i + 1;
    }
    assert paths[..i] == paths;
  }

  /** `format_and_merge_bills` (lines 7-59): the Alipay rows, then the WeChat rows,
      through the pipeline. With no bill read at all the concatenated frame has no
      交易时间 column and the sort raises. */
  method FormatAndMergeBills(wechatPaths: seq<string>, alipayPaths: seq<string>, isFile: string -> bool,
                             wechatFormat: string -> Result<seq<FrameRow>, string>,
                             alipayFormat: string -> Result<seq<FrameRow>, string>)
    returns (r: Result<seq<MergedRow>, string>)
    ensures var wechat := ReadBills(wechatPaths, isFile, wechatFormat);
            var alipay := ReadBills(alipayPaths, isFile, alipayFormat);
            && (r.Err? <==> wechat == [] && alipay == [])
            && (r.Ok? ==> r.value == SortProjectFilter(Flatten(alipay) + Flatten(wechat)))
  {
    var wechatBills := ReadAll(wechatPaths, isFile, wechatFormat);
    var alipayBills := ReadAll(alipayPaths, isFile, alipayFormat);
    if wechatBills == [] && alipayBills == [] {
      return Err("KeyError: '交易时间'");
    }
    r := Ok(SortProjectFilter(Flatten(alipayBills) + Flatten(wechatBills)));
  }

  /** The rows of the formatted and merged bill are, as a multiset, the counted rows of
      every bill read, Alipay or WeChat, sorted by time. */
  lemma FormatAndMergeSpec(alipay: seq<seq<FrameRow>>, wechat: seq<seq<FrameRow>>)
    ensures var r := SortProjectFilter(Flatten(alipay) + Flatten(wechat));
            && SortedBy(r, MergedTimeKey)
            && (forall m :: m in r ==> Counted(m))
            && multiset(r) == multiset(Filter(Map(Flatten(alipay), Reindex), Counted))
                            + multiset(Filter(Map(Flatten(wechat), Reindex), Counted))
  {
    var a := Flatten(alipay);
    var w := Flatten(wechat);
    SortProjectFilterSpec(a + w);
    MapAppend(a, w, Reindex);
    FilterAppend(Map(a, Reindex), Map(w, Reindex), Counted);
  }
}
