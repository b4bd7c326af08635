/** The hand-made feature vectors of src/python/utils/extract_features.py: flags and
    scaled values over a parsed time, a payment account and an amount. Parsing the
    time (`pd.to_datetime`) is a library call; its outcome is the `ParsedTime` argument. */
module Features {
  import opened Common
  import opened BillRows

  function Flag(b: bool): real
  {
    if b then 1.0 else 0.0
  }

  function Zeros(n: nat): (r: seq<real>)
    ensures |r| == n && forall i :: 0 <= i < n ==> r[i] == 0.0
  {
    seq(n, i => 0.0)
  }

  predicate Morning(hour: nat)   { 5 <= hour < 12 }
  predicate Afternoon(hour: nat) { 12 <= hour < 18 }
  predicate Evening(hour: nat)   { 18 <= hour < 22 }
  predicate Night(hour: nat)     { hour >= 22 || hour < 5 }

  /** The days of the month the source treats as pay days. */
  const SalaryDays: set<nat> := {10, 15, 20, 25, 30, 31, 1}

  /** What `pd.to_datetime` makes of a transaction time: it raises (or gives None,
      whose `.hour` raises in turn), gives NaT (for NaN or ""), or gives a timestamp. */
  datatype ParsedTime = Unparsed | NotATime | At(t: Timestamp)

  /** `extract_time_features`: hour/24, weekday/6, (month-1)/11, then the weekend,
      morning, afternoon, evening, night and salary-day flags, each a float that may
      be NaN. The `except` gives nine zeros; NaT has NaN hour, weekday and month, so
      the three scaled values are NaN and every comparison, hence every flag, is 0. */
  function TimeFeatures(parsed: ParsedTime): (r: seq<Cell>)
    requires parsed.At? ==> ValidTimestamp(parsed.t)
    ensures |r| == 9
    ensures parsed.Unparsed? ==> forall i :: 0 <= i < 9 ==> r[i] == Number(0.0)
    ensures parsed.NotATime? ==> && (forall i :: 0 <= i < 3 ==> r[i] == NaN)
                                 && (forall i :: 3 <= i < 9 ==> r[i] == Number(0.0))
    ensures parsed.At? ==>
              var t := parsed.t;
              && (forall i :: 0 <= i < 9 ==> r[i].Number?)
              && r[0] == Number(t.hour as real / 24.0)
              && r[1] == Number(t.weekday as real / 6.0)
              && r[2] == Number((t.month - 1) as real / 11.0)
              && (r[3] == Number(1.0) <==> t.weekday in {5, 6})
              && (r[4] == Number(1.0) <==> 5 <= t.hour < 12)
              && (r[5] == Number(1.0) <==> 12 <= t.hour < 18)
              && (r[6] == Number(1.0) <==> 18 <= t.hour < 22)
              && (r[7] == Number(1.0) <==> t.hour >= 22 || t.hour < 5)
              && (r[8] == Number(1.0) <==> t.day in SalaryDays)
    ensures forall i :: 0 <= i < 9 ==> r[i] == NaN || (r[i].Number? && 0.0 <= r[i].x <= 1.0)
  {
    match parsed
    case Unparsed => seq(9, i => Number(0.0))
    case NotATime => [NaN, NaN, NaN] + seq(6, i => Number(0.0))
    case At(t) =>
      [Number(t.hour as real / 24.0), Number(t.weekday as real / 6.0), Number((t.month - 1) as real / 11.0),
       Number(Flag(t.weekday >= 5)),
       Number(Flag(Morning(t.hour))), Number(Flag(Afternoon(t.hour))), Number(Flag(Evening(t.hour))),
       Number(Flag(Night(t.hour))),
       Number(Flag(t.day in SalaryDays))]
  }

  /** Every hour of a day falls in exactly one of the four day parts, so exactly one
      of the four part-of-day flags is set. */
  lemma ExactlyOneDayPart(t: Timestamp)
    requires ValidTimestamp(t)
    ensures var r := TimeFeatures(At(t));
            && (r[4].x + r[5].x + r[6].x + r[7].x == 1.0)
            && (forall i :: 4 <= i < 8 ==> r[i] == Number(0.0) || r[i] == Number(1.0))
  {
  }

  /** An account is falsy when it is None or the empty string. */
  predicate Falsy(account: Option<string>)
  {
    account.None? || account.value == ""
  }

  /** `A in account or b in account.lower()` for a truthy account. */
  predicate Mentions(account: Option<string>, native: string, latin: string)
  {
    !Falsy(account) && (Contains(account.value, native) || Contains(ToLower(account.value), latin))
  }

  /** `extract_account_features`: credit card, debit card, Alipay and WeChat flags. */
  function AccountFeatures(account: Option<string>): (r: seq<real>)
    ensures |r| == 4
    ensures Falsy(account) ==> r == Zeros(4)
    ensures r[0] == 1.0 <==> Mentions(account, "信用卡", "credit")
    ensures r[1] == 1.0 <==> Mentions(account, "储蓄卡", "借记卡")
    ensures r[2] == 1.0 <==> Mentions(account, "支付宝", "alipay")
    ensures r[3] == 1.0 <==> Mentions(account, "微信", "wechat")
    ensures forall i :: 0 <= i < 4 ==> r[i] == 0.0 || r[i] == 1.0
  {
    [Flag(Mentions(account, "信用卡", "credit")), Flag(Mentions(account, "储蓄卡", "借记卡")),
     Flag(Mentions(account, "支付宝", "alipay")), Flag(Mentions(account, "微信", "wechat"))]
  }

  /** Lower-casing a prefix is taking the prefix of the lower-cased text. */
  lemma {:induction false} ToLowerPrefix(s: string, n: nat)
    requires n <= |s|
    ensures ToLower(s)[..n] == ToLower(s[..n])
  {
    if n > 0 {
      ToLowerPrefix(s[1..], n - 1);
      assert s[..n][1..] == s[1..][..n - 1];
    }
  }

  /** A text that contains `sub` contains, once lower-cased, the lower-cased `sub`. */
  lemma {:induction false} ContainsLowered(s: string, sub: string)
    requires Contains(s, sub)
    ensures Contains(ToLower(s), ToLower(sub))
    decreases |s|
  {
    if StartsWith(s, sub) {
      ToLowerPrefix(s, |sub|);
    } else {
      ContainsLowered(s[1..], sub);
      assert ToLower(s)[1..] == ToLower(s[1..]);
    }
  }

  /** The Latin names are matched after lower-casing the account, so they count in any
      letter case: an account holding some spelling `w` of "credit", "alipay" or
      "wechat" ("Credit", "ALIPAY", "WeChat", ...) sets the flag. */
  lemma LatinNamesAnyCase(account: string, w: string)
    requires Contains(account, w)
    ensures ToLower(w) == "credit" ==> AccountFeatures(Some(account))[0] == 1.0
    ensures ToLower(w) == "alipay" ==> AccountFeatures(Some(account))[2] == 1.0
    ensures ToLower(w) == "wechat" ==> AccountFeatures(Some(account))[3] == 1.0
  {
    ContainsLowered(account, w);
  }

  /** "Credit Card" sets the credit-card flag. */
  lemma CreditCardAnyCase()
    ensures AccountFeatures(Some("Credit Card"))[0] == 1.0
  {
    var w := "Credit";
    assert "Credit Card"[..|w|] == w;
    assert ToLower(w) == "credit";
    LatinNamesAnyCase("Credit Card", w);
  }

  /** Amount level boundaries. */
  predicate Small(amount: real)  { amount < 50.0 }
  predicate Medium(amount: real) { 50.0 <= amount < 500.0 }
  predicate Large(amount: real)  { amount >= 500.0 }

  function Min(a: real, b: real): real
  {
    if a <= b then a else b
  }

  /** `extract_amount_features`: min(1, amount/10000) and the small, medium and large
      flags; four zeros for an absent amount. */
  function AmountFeatures(amount: Option<real>): (r: seq<real>)
    ensures |r| == 4
    ensures amount.None? ==> r == Zeros(4)
    ensures amount.Some? ==>
              && r[0] <= 1.0
              && (amount.value <= 10000.0 ==> r[0] == amount.value / 10000.0)
              && (amount.value >= 10000.0 ==> r[0] == 1.0)
              && (r[1] == 1.0 <==> Small(amount.value))
              && (r[2] == 1.0 <==> Medium(amount.value))
              && (r[3] == 1.0 <==> Large(amount.value))
  {
    if amount.None? then Zeros(4)
    else
      var a := amount.value;
      [Min(1.0, a / 10000.0), Flag(Small(a)), Flag(Medium(a)), Flag(Large(a))]
  }

  /** For a present amount exactly one level flag is set. */
  lemma ExactlyOneLevel(amount: real)
    ensures var r := AmountFeatures(Some(amount));
            r[1] + r[2] + r[3] == 1.0
  {
  }

  /** 50 is already medium and 500 already large; negative amounts (refunds) are
      small and are not clamped from below. */
  lemma LevelBoundaries()
    ensures AmountFeatures(Some(50.0))[2] == 1.0
    ensures AmountFeatures(Some(500.0))[3] == 1.0
    ensures AmountFeatures(Some(-20000.0))[0] == -2.0
    ensures AmountFeatures(Some(-20000.0))[1] == 1.0
  {
  }
}
