/** The bill preprocessors of src/preprocessor/index.ts and of
    src/frontend/src/bak/preprocessor/index.ts: drop the rows that are neither income
    nor expense, then fill in the missing 类型 of the remaining row objects in place,
    from the user keywords and, in the second copy, from the learned keywords. */
module Preprocessor {
  import opened Common
  import opened BillRows
  import opened Sorting
  import Keywords

  /** A bill row object; the preprocessors write only its 类型. */
  class BillRecord {
    const time: int
    var category: string
    const amount: string
    const direction: string
    const payMethod: string
    const merchant: string
    const product: string
    const remark: string

    constructor (row: BookKeepingRow)
      ensures category == row.category
      ensures time == row.time && amount == row.amount && direction == row.direction && payMethod == row.payMethod
      ensures merchant == row.merchant && product == row.product && remark == row.remark
    {
      time, category, amount, direction := row.time, row.category, row.amount, row.direction;
      payMethod, merchant, product, remark := row.payMethod, row.merchant, row.product, row.remark;
    }
  }

  /** The filter of lines 8-10: a row is dropped when its 收/支 is "/" and its product
      does not mention 退款 (a refund). */
  predicate Kept(r: BillRecord)
  {
    !(r.direction == "/" && !Contains(r.product, "退款"))
  }

  /** The user keywords of the settings, in key order, with their mapped types. */
  type KeywordsMap = seq<(string, string)>

  /** `keywords.find(keyword => product.includes(keyword))`: the first keyword the
      product contains. */
  function FirstMatch(keywords: KeywordsMap, product: string): (m: Option<nat>)
    ensures m.Some? ==> m.value < |keywords| && Contains(product, keywords[m.value].0)
                        && forall j :: 0 <= j < m.value ==> !Contains(product, keywords[j].0)
    ensures m.None? ==> forall j :: 0 <= j < |keywords| ==> !Contains(product, keywords[j].0)
  {
    if keywords == [] then None
    else if Contains(product, keywords[0].0) then Some(0)
    else
      var m := FirstMatch(keywords[1..], product);
      if m.Some? then Some(m.value + 1) else None
  }

  /** The new 类型 of one row under the settings stage (lines 16-28): a typed row keeps
      its type; otherwise the first matching keyword gives its type when the keyword is
      non-empty (`keyword &&`) and its value is a RecordType name. */
  function UserFill(category: string, product: string, keywords: KeywordsMap): string
  {
    if category != "" then category
    else
      var m := FirstMatch(keywords, product);
      if m.Some? && keywords[m.value].0 != "" && keywords[m.value].1 in RecordTypeNames then keywords[m.value].1
      else category
  }

  /** A typed row is left alone; a changed type is the RecordType mapped to the FIRST
      keyword the product contains, so a later valid keyword is never tried; and filling
      twice is filling once. */
  lemma UserFillSpec(category: string, product: string, keywords: KeywordsMap)
    ensures var c := UserFill(category, product, keywords);
            && (category != "" ==> c == category)
            && (c != category ==>
                  && category == ""
                  && c in RecordTypeNames
                  && exists i :: 0 <= i < |keywords| && keywords[i].1 == c && keywords[i].0 != ""
                                 && Contains(product, keywords[i].0)
                                 && forall j :: 0 <= j < i ==> !Contains(product, keywords[j].0))
            && UserFill(c, product, keywords) == c
  {
    var m := FirstMatch(keywords, product);
    if UserFill(category, product, keywords) != category {
      assert keywords[m.value].1 == UserFill(category, product, keywords);
    }
  }

  /** The settings stage over the row objects, in order. */
  method UserFillStage(rows: seq<BillRecord>, keywords: KeywordsMap)
    modifies set r | r in rows
    ensures forall r :: r in rows ==> r.category == UserFill(old(r.category), r.product, keywords)
  {
    var i := 0;
    while i < |rows|
      invariant 0 <= i <= |rows|
      invariant forall r :: r in rows ==>
                  r.category == if r in rows[..i] then UserFill(old(r.category), r.product, keywords) else old(r.category)
    {
      var row := rows[i];
      UserFillSpec(old(row.category), row.product, keywords);
      if row.category == "" {
        var m := FirstMatch(keywords, row.product);
        if m.Some? && keywords[m.value].0 != "" && keywords[m.value].1 in RecordTypeNames {
          row.category := keywords[m.value].1;
        }
      }
      assert rows[..i + 1] == rows[..i] + [row];
      i := i + 1;
    }
    assert rows[..i] == rows;
  }

  /** `billPreprocessor` of src/preprocessor/index.ts (lines 4-31): the kept rows, in
      order and as the same objects, each with its type filled in place; dropped rows
      are not touched. */
  method BillPreprocessor(records: seq<BillRecord>, keywords: KeywordsMap) returns (out: seq<BillRecord>)
    modifies set r | r in records
    ensures out == Filter(records, Kept)
    ensures forall r :: r in records ==>
              r.category == if r in out then UserFill(old(r.category), r.product, keywords) else old(r.category)
  {
    out := Filter(records, Kept);
    FilterElements(records, Kept);
    UserFillStage(out, keywords);
  }

  /** The new 类型 under the learned-keywords stage (lines 36-45 of the second copy): an
      untyped row takes the learned type of its key when that type is truthy. */
  function AutoFill(category: string, merchant: string, product: string, learned: map<string, string>): string
  {
    var key := Keywords.Key(merchant, product);
    if category != "" then category
    else if key in learned && learned[key] != "" then learned[key]
    else category
  }

  /** The learned stage only types untyped rows, so a type from the user keywords is
      never overridden; a filled type is the learned one of the row's key; filling twice
      is filling once. */
  lemma AutoFillSpec(category: string, merchant: string, product: string, learned: map<string, string>, keywords: KeywordsMap)
    ensures var c := AutoFill(category, merchant, product, learned);
            && (category != "" ==> c == category)
            && (c != category ==> Keywords.Key(merchant, product) in learned && c == learned[Keywords.Key(merchant, product)] && c != "")
            && AutoFill(c, merchant, product, learned) == c
    ensures var u := UserFill(category, product, keywords);
            u != "" ==> AutoFill(u, merchant, product, learned) == u
  {
  }

  /** The learned stage over the row objects, in order. */
  method AutoFillStage(rows: seq<BillRecord>, learned: map<string, string>)
    modifies set r | r in rows
    ensures forall r :: r in rows ==> r.category == AutoFill(old(r.category), r.merchant, r.product, learned)
  {
    var i := 0;
    while i < |rows|
      invariant 0 <= i <= |rows|
      invariant forall r :: r in rows ==>
                  r.category == if r in rows[..i] then AutoFill(old(r.category), r.merchant, r.product, learned) else old(r.category)
    {
      var row := rows[i];
      AutoFillSpec(old(row.category), row.merchant, row.product, learned, []);
      if row.category == "" {
        var key := Keywords.Key(row.merchant, row.product);
        if key in learned && learned[key] != "" {
          row.category := learned[key];
        }
      }
      assert rows[..i + 1] == rows[..i] + [row];
      i := i + 1;
    }
    assert rows[..i] == rows;
  }

  /** `billPreprocessor` of src/frontend/src/bak/preprocessor/index.ts (lines 5-48):
      the same filter and settings stage, then the learned keywords (the result of the
      keyword learner, a parameter here) for the rows still untyped. */
  method BakBillPreprocessor(records: seq<BillRecord>, keywords: KeywordsMap, learned: map<string, string>)
    returns (out: seq<BillRecord>)
    modifies set r | r in records
    ensures out == Filter(records, Kept)
    ensures forall r :: r in records ==>
              r.category == if r in out then AutoFill(UserFill(old(r.category), r.product, keywords), r.merchant, r.product, learned)
                            else old(r.category)
  {
    out := Filter(records, Kept);
    FilterElements(records, Kept);
    UserFillStage(out, keywords);
    AutoFillStage(out, learned);
  }

  /** The kept rows are exactly the rows that pass the filter, in their order. */
  lemma KeptRows(records: seq<BillRecord>)
    ensures forall r :: r in Filter(records, Kept) <==> r in records && !(r.direction == "/" && !Contains(r.product, "退款"))
    ensures |Filter(records, Kept)| <= |records|
  {
    FilterElements(records, Kept);
    FilterLength(records, Kept);
  }
}
