/** The keyword learner of src/preprocessor/keywordsGenerator.ts: from a dataset of
    classified bill rows it learns, per "merchant|product}" key, the type of the
    rows with that key once the key is frequent enough, and bans a key for good
    (practically) when two of its rows disagree. The dataset reader and the path
    resolution are I/O: the rows are a parameter. */
module Keywords {
  import opened Common
  import opened BillRows
  import opened Sorting

  /** The count a key is set to when its rows disagree. */
  const Banned: int := -9999999

  /** The dataset filter (lines 17-32): drop WeChat transfers with product "/", rows
      with a remark, rows without a type, and rows with neither merchant nor product. */
  predicate Informative(row: BookKeepingRow)
  {
    && !(row.payMethod == "微信支付" && row.product == "/")
    && !(|row.remark| > 0)
    && !(row.category == "" || (row.merchant == "" && row.product == ""))
  }

  /** The key of line 37, `${交易对方}|${商品名称}}`, with its literal trailing '}';
      src/frontend/src/bak/preprocessor/index.ts builds the same key at line 39. */
  function Key(merchant: string, product: string): string
  {
    merchant + "|" + product + "}"
  }

  function KeyOf(row: BookKeepingRow): string
  {
    Key(row.merchant, row.product)
  }

  /** A merchant without '|' is read back from the key, and so is the product. */
  lemma KeyOfInjective(a: BookKeepingRow, b: BookKeepingRow)
    requires '|' !in a.merchant && '|' !in b.merchant
    requires KeyOf(a) == KeyOf(b)
    ensures a.merchant == b.merchant && a.product == b.product
  {
    var ka, kb := KeyOf(a), KeyOf(b);
    FirstPipeAfter(a.merchant, "|" + a.product + "}");
    FirstPipeAfter(b.merchant, "|" + b.product + "}");
    assert ka == a.merchant + ("|" + a.product + "}") && kb == b.merchant + ("|" + b.product + "}");
    assert a.merchant == ka[..|a.merchant|] && b.merchant == kb[..|b.merchant|];
    assert a.product == ka[|a.merchant| + 1..|ka| - 1];
    assert b.product == kb[|b.merchant| + 1..|kb| - 1];
  }

  /** Position of the first '|' in `s`, or `|s|`. */
  function FirstPipe(s: string): nat
  {
    if s == [] || s[0] == '|' then 0 else 1 + FirstPipe(s[1..])
  }

  lemma {:induction false} FirstPipeAfter(m: string, rest: string)
    requires '|' !in m && rest != [] && rest[0] == '|'
    ensures FirstPipe(m + rest) == |m|
  {
    if m == [] {
      assert m + rest == rest;
    } else {
      FirstPipeAfter(m[1..], rest);
      assert (m + rest)[1..] == m[1..] + rest;
    }
  }

  /** The two records of the loop: the count per key and the learned type per key. */
  datatype Learned = Learned(frequency: map<string, int>, keywords: map<string, string>)

  const Initial := Learned(map[], map[])

  /** The new count of lines 39-43: `!characterFrequency[c]` holds for a missing key and
      for a count of 0, and either way the count becomes 1. */
  function Bump(frequency: map<string, int>, key: string): (n: int)
    ensures n == (if key in frequency then frequency[key] else 0) + 1
  {
    if key !in frequency || frequency[key] == 0 then 1 else frequency[key] + 1
  }

  /** One iteration of lines 36-57. */
  function Step(s: Learned, record: BookKeepingRow, threshold: int): Learned
  {
    var key := KeyOf(record);
    var count := Bump(s.frequency, key);
    var frequency := s.frequency[key := count];
    if count < threshold then Learned(frequency, s.keywords)
    else if key !in s.keywords || s.keywords[key] == "" then Learned(frequency, s.keywords[key := record.category])
    else if s.keywords[key] != record.category then Learned(frequency[key := Banned], s.keywords - {key})
    else Learned(frequency, s.keywords)
  }

  /** The records after running the loop over `records` from `s`. */
  function LearnFrom(s: Learned, records: seq<BookKeepingRow>, threshold: int): Learned
  {
    if records == [] then s
    else Step(LearnFrom(s, records[..|records| - 1], threshold), records[|records| - 1], threshold)
  }

  /** `keywordsGenerator` (lines 7-60): nothing without a dataset path, else the loop
      over the informative rows. */
  method KeywordsGenerator(datasetPath: Option<string>, records: seq<BookKeepingRow>, threshold: int)
    returns (keywords: map<string, string>)
    ensures datasetPath.None? || datasetPath == Some("") ==> keywords == map[]
    ensures datasetPath.Some? && datasetPath.value != "" ==>
              keywords == LearnFrom(Initial, Filter(records, Informative), threshold).keywords
  {
    keywords := map[];
    if datasetPath.None? || datasetPath.value == "" {
      return;
    }
    var filtered := Filter(records, Informative);
    var frequency: map<string, int> := map[];
    var i := 0;
    while i < |filtered|
      invariant 0 <= i <= |filtered|
      invariant Learned(frequency, keywords) == LearnFrom(Initial, filtered[..i], threshold)
    {
      assert filtered[..i + 1][..i] == filtered[..i];
      var record := filtered[i];
      var key := KeyOf(record);
      if key !in frequency || frequency[key] == 0 {
        frequency := frequency[key := 1];
      } else {
        frequency := frequency[key := frequency[key] + 1];
      }
      if frequency[key] >= threshold {
        if key !in keywords || keywords[key] == "" {
          keywords := keywords[key := record.category];
        } else if keywords[key] != record.category {
          keywords := keywords - {key};
          frequency := frequency[key := Banned];
        }
      }
      i := i + 1;
    }
    assert filtered[..i] == filtered;
  }

  /** Running over `a + b` is running over `a`, then over `b`. */
  lemma {:induction false} LearnFromAppend(s: Learned, a: seq<BookKeepingRow>, b: seq<BookKeepingRow>, threshold: int)
    ensures LearnFrom(s, a + b, threshold) == LearnFrom(LearnFrom(s, a, threshold), b, threshold)
  {
    if b == [] {
      assert a + b == a;
    } else {
      LearnFromAppend(s, a, b[..|b| - 1], threshold);
      assert (a + b)[..|a + b| - 1] == a + b[..|b| - 1];
      assert (a + b)[|a + b| - 1] == b[|b| - 1];
    }
  }

  /** Number of records with key `k`. */
  function CountKey(records: seq<BookKeepingRow>, k: string): nat
  {
    if records == [] then 0
    else CountKey(records[..|records| - 1], k) + (if KeyOf(records[|records| - 1]) == k then 1 else 0)
  }

  /** The last record with key `k`. */
  function LastWithKey(records: seq<BookKeepingRow>, k: string): Option<BookKeepingRow>
  {
    if records == [] then None
    else if KeyOf(records[|records| - 1]) == k then Some(records[|records| - 1])
    else LastWithKey(records[..|records| - 1], k)
  }

  /** Every learned key counts at least `threshold` and holds the type of the last
      record with that key. */
  predicate Sound(s: Learned, records: seq<BookKeepingRow>, threshold: int)
  {
    forall k :: k in s.keywords ==>
      && k in s.frequency && s.frequency[k] >= threshold
      && LastWithKey(records, k).Some? && LastWithKey(records, k).value.category == s.keywords[k]
  }

  lemma StepSound(s: Learned, records: seq<BookKeepingRow>, r: BookKeepingRow, threshold: int)
    requires Sound(s, records, threshold)
    ensures Sound(Step(s, r, threshold), records + [r], threshold)
  {
    var t := Step(s, r, threshold);
    var rs := records + [r];
    assert rs[..|rs| - 1] == records;
    forall k | k in t.keywords
      ensures k in t.frequency && t.frequency[k] >= threshold
      ensures LastWithKey(rs, k).Some? && LastWithKey(rs, k).value.category == t.keywords[k]
    {
      if k != KeyOf(r) {
        assert LastWithKey(rs, k) == LastWithKey(records, k);
      }
    }
  }

  /** The learned keys are sound: each counts at least `threshold` and carries the type
      of the last informative record with its key. */
  lemma {:induction false} LearnSound(records: seq<BookKeepingRow>, threshold: int)
    ensures Sound(LearnFrom(Initial, records, threshold), records, threshold)
  {
    if records != [] {
      var init := records[..|records| - 1];
      LearnSound(init, threshold);
      StepSound(LearnFrom(Initial, init, threshold), init, records[|records| - 1], threshold);
      assert init + [records[|records| - 1]] == records;
    }
  }

  /** A key whose records all carry type `c` is counted exactly, and it is learned, with
      type `c`, exactly when it has at least one record and reaches the threshold. */
  lemma {:induction false} LearnConsistent(records: seq<BookKeepingRow>, k: string, c: string, threshold: int)
    requires forall i :: 0 <= i < |records| && KeyOf(records[i]) == k ==> records[i].category == c
    ensures var s := LearnFrom(Initial, records, threshold);
            var n := CountKey(records, k);
            && (n == 0 ==> k !in s.frequency)
            && (n > 0 ==> k in s.frequency && s.frequency[k] == n)
            && (k in s.keywords <==> n > 0 && n >= threshold)
            && (k in s.keywords ==> s.keywords[k] == c)
  {
    if records != [] {
      var init := records[..|records| - 1];
      assert forall i :: 0 <= i < |init| ==> init[i] == records[i];
      LearnConsistent(init, k, c, threshold);
    }
  }

  /** A banned key with no learned type stays unlearned while its count, climbing from
      the ban value, stays below the threshold. */
  lemma {:induction false} BanHolds(s: Learned, b: seq<BookKeepingRow>, k: string, threshold: int)
    requires k in s.frequency && s.frequency[k] == Banned && k !in s.keywords
    requires Banned + CountKey(b, k) < threshold
    ensures var t := LearnFrom(s, b, threshold);
            k !in t.keywords && k in t.frequency && t.frequency[k] == Banned + CountKey(b, k)
  {
    if b != [] {
      BanHolds(s, b[..|b| - 1], k, threshold);
    }
  }

  /** Once a learned key meets a record of another type, the key is dropped, and it stays
      out of the result for every later stretch of records holding fewer than
      `threshold - Banned` records with that key. */
  lemma ConflictBans(a: seq<BookKeepingRow>, r: BookKeepingRow, b: seq<BookKeepingRow>, threshold: int)
    requires var s := LearnFrom(Initial, a, threshold);
             KeyOf(r) in s.keywords && s.keywords[KeyOf(r)] != "" && s.keywords[KeyOf(r)] != r.category
    requires Banned + CountKey(b, KeyOf(r)) < threshold
    ensures KeyOf(r) !in LearnFrom(Initial, a + [r] + b, threshold).keywords
  {
    var k := KeyOf(r);
    LearnSound(a, threshold);
    LearnFromAppend(Initial, a + [r], b, threshold);
    assert (a + [r])[..|a + [r]| - 1] == a;
    BanHolds(LearnFrom(Initial, a + [r], threshold), b, k, threshold);
  }
}
