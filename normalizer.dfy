/** `_preprocess_text` of the embedding functions: the text handed to the sentence
    encoder for storage and for queries. Two variants exist: whitespace collapsing
    only (src/backend/models/EnhancedEmbedding.py and src/python/utils/vector_db.py,
    identical code), and collapsing followed by deletion of long digit runs
    (src/python/utils/embedding.py). */
module Normalizer {
  import opened Common
  import opened TextSplit

  /** A document handed to the embedding function: a Python `str`, or some other
      object, of which only its `str()` rendering matters here. */
  datatype Document = Str(text: string) | Other(repr: string)

  // ---------------------------------------------------------------------------
  // Whitespace collapsing: `' '.join(text.split())`

  function CollapseWhitespace(s: string): (r: string)
    ensures WellSpaced(r)
    ensures NonSpace(r) == NonSpace(s)
  {
    WordsSpec(s);
    JoinWordsWellSpaced(Words(s));
    NonSpaceOfJoin(Words(s));
    JoinWith(Words(s), " ")
  }

  /** Joining words with spaces adds no non-whitespace character. */
  lemma {:induction false} NonSpaceOfJoin(ws: seq<string>)
    requires forall k :: 0 <= k < |ws| ==> IsWord(ws[k])
    ensures NonSpace(JoinWith(ws, " ")) == Concat(ws)
  {
    if |ws| == 1 {
      NonSpaceOfWord(ws[0]);
      assert Concat(ws) == ws[0] + [];
    } else if |ws| > 1 {
      NonSpaceOfJoin(ws[1..]);
      var t := JoinWith(ws[1..], " ");
      NonSpaceAppend(ws[0] + " ", t);
      NonSpaceAppend(ws[0], " ");
      NonSpaceOfWord(ws[0]);
      assert NonSpace(" ") == [];
    }
  }

  /** Collapsing twice is collapsing once. */
  lemma CollapseIdempotent(s: string)
    ensures CollapseWhitespace(CollapseWhitespace(s)) == CollapseWhitespace(s)
  {
    WellSpacedIsJoinOfWords(CollapseWhitespace(s));
  }

  /** A well-spaced text is a fixed point of collapsing. */
  lemma CollapseFixesWellSpaced(t: string)
    requires WellSpaced(t)
    ensures CollapseWhitespace(t) == t
  {
    WellSpacedIsJoinOfWords(t);
  }

  /** A text of whitespace only collapses to the empty string. */
  lemma CollapseBlank(s: string)
    requires forall i :: 0 <= i < |s| ==> IsPySpace(s[i])
    ensures CollapseWhitespace(s) == ""
  {
    WordsOfBlank(s);
  }

  predicate IsBlank(b: string)
  {
    forall i :: 0 <= i < |b| ==> IsPySpace(b[i])
  }

  /** Two words surrounded by any whitespace (e.g. "  星巴克   咖啡  ") collapse to
      the two words separated by one space ("星巴克 咖啡"). */
  lemma CollapseTwoWords(b1: string, w1: string, b2: string, w2: string, b3: string)
    requires IsBlank(b1) && IsBlank(b2) && IsBlank(b3) && b2 != []
    requires IsWord(w1) && IsWord(w2)
    ensures CollapseWhitespace(b1 + w1 + b2 + w2 + b3) == w1 + " " + w2
  {
    var s := b1 + w1 + b2 + w2 + b3;
    assert s == b1 + (w1 + (b2 + (w2 + b3)));
    WordsOfBlank(b3);
    WordsTakeWord(w2, b3);
    WordsSkipBlank(b2, w2 + b3);
    assert (b2 + (w2 + b3))[0] == b2[0];
    WordsTakeWord(w1, b2 + (w2 + b3));
    WordsSkipBlank(b1, w1 + (b2 + (w2 + b3)));
    assert Words(s) == [w1, w2];
    assert [w1, w2][1..] == [w2];
    assert JoinWith([w1, w2], " ") == w1 + " " + w2;
  }

  /** `_preprocess_text` of src/backend/models/EnhancedEmbedding.py and of
      src/python/utils/vector_db.py: a non-string is rendered with `str()` and left
      alone; a string has its whitespace collapsed. */
  function PreprocessCollapse(d: Document): (r: string)
    ensures d.Other? ==> r == d.repr
    ensures d.Str? ==> WellSpaced(r) && NonSpace(r) == NonSpace(d.text)
  {
    match d
    case Other(repr) => repr
    case Str(text) => CollapseWhitespace(text)
  }

  /** The preprocessing of `__call__` in the same two files: one text per document, in
      order; these texts go to a single batched encode call. */
  function CollapseInputs(input: seq<Document>): (r: seq<string>)
    ensures |r| == |input|
    ensures forall i :: 0 <= i < |input| && input[i].Str? ==>
              WellSpaced(r[i]) && NonSpace(r[i]) == NonSpace(input[i].text)
    ensures forall i :: 0 <= i < |input| && input[i].Other? ==> r[i] == input[i].repr
  {
    if input == [] then [] else [PreprocessCollapse(input[0])] + CollapseInputs(input[1..])
  }

  // ---------------------------------------------------------------------------
  // Long digit runs: `re.sub(r'\d{9,}', '', text)`

  /** Length of the leading run of digits. */
  function DigitRunLen(s: string): (n: nat)
    ensures n <= |s|
    ensures forall i :: 0 <= i < n ==> IsDecimalDigit(s[i])
    ensures n < |s| ==> !IsDecimalDigit(s[n])
  {
    if s == [] || !IsDecimalDigit(s[0]) then 0 else 1 + DigitRunLen(s[1..])
  }

  /** Every maximal run of nine or more digits deleted, everything else kept. */
  function StripLongDigitRuns(s: string): string
    decreases |s|
  {
    if s == [] then []
    else if !IsDecimalDigit(s[0]) then [s[0]] + StripLongDigitRuns(s[1..])
    else
      var n := DigitRunLen(s);
      (if n >= 9 then [] else s[..n]) + StripLongDigitRuns(s[n..])
  }

  /** No position of `t` starts a run of nine or more digits. */
  predicate NoLongDigitRun(t: string)
  {
    forall i :: 0 <= i < |t| ==> DigitRunLen(t[i..]) < 9
  }

  /** Does not start in the middle of a digit run. */
  predicate StartsClean(t: string)
  {
    t == [] || !IsDecimalDigit(t[0])
  }

  /** The characters of `s` that are not digits, in order. */
  function NonDigits(s: string): string
  {
    if s == [] then [] else (if IsDecimalDigit(s[0]) then [] else [s[0]]) + NonDigits(s[1..])
  }

  lemma {:induction false} NonDigitsAppend(a: string, b: string)
    ensures NonDigits(a + b) == NonDigits(a) + NonDigits(b)
  {
    if a == [] {
      assert a + b == b;
    } else {
      assert (a + b)[1..] == a[1..] + b;
      NonDigitsAppend(a[1..], b);
    }
  }

  lemma {:induction false} NonDigitsOfDigits(a: string)
    requires forall i :: 0 <= i < |a| ==> IsDecimalDigit(a[i])
    ensures NonDigits(a) == []
  {
    if a != [] {
      NonDigitsOfDigits(a[1..]);
    }
  }

  /** A run of digits followed by a clean text is a run of exactly that length. */
  lemma {:induction false} DigitRunLenAppend(a: string, b: string)
    requires forall i :: 0 <= i < |a| ==> IsDecimalDigit(a[i])
    requires StartsClean(b)
    ensures DigitRunLen(a + b) == |a|
  {
    if a == [] {
      assert a + b == b;
    } else {
      assert (a + b)[1..] == a[1..] + b;
      DigitRunLenAppend(a[1..], b);
    }
  }

  /** Stripping a clean text gives a clean text. */
  lemma StripStartsClean(s: string)
    requires StartsClean(s)
    ensures StartsClean(StripLongDigitRuns(s))
  {
  }

  /** The output holds no run of nine or more digits; every non-digit character is
      kept, in order. */
  lemma StripSpec(s: string)
    ensures NoLongDigitRun(StripLongDigitRuns(s))
    ensures NonDigits(StripLongDigitRuns(s)) == NonDigits(s)
  {
    StripNoLongRun(s);
    StripKeepsNonDigits(s);
  }

  lemma {:induction false} StripNoLongRun(s: string)
    ensures NoLongDigitRun(StripLongDigitRuns(s))
    decreases |s|
  {
    var r := StripLongDigitRuns(s);
    if s == [] {
    } else if !IsDecimalDigit(s[0]) {
      var rest := StripLongDigitRuns(s[1..]);
      StripNoLongRun(s[1..]);
      assert r == [s[0]] + rest;
      forall i | 0 <= i < |r|
        ensures DigitRunLen(r[i..]) < 9
      {
        if i > 0 {
          assert r[i..] == rest[i - 1..];
        }
      }
    } else {
      var n := DigitRunLen(s);
      var rest := StripLongDigitRuns(s[n..]);
      StripNoLongRun(s[n..]);
      if n >= 9 {
        assert r == rest;
      } else {
        StripStartsClean(s[n..]);
        var head := s[..n];
        assert r == head + rest;
        forall i | 0 <= i < |r|
          ensures DigitRunLen(r[i..]) < 9
        {
          if i < n {
            assert r[i..] == head[i..] + rest;
            DigitRunLenAppend(head[i..], rest);
          } else {
            assert r[i..] == rest[i - n..];
          }
        }
      }
    }
  }

  lemma {:induction false} StripKeepsNonDigits(s: string)
    ensures NonDigits(StripLongDigitRuns(s)) == NonDigits(s)
    decreases |s|
  {
    if s == [] {
    } else if !IsDecimalDigit(s[0]) {
      var rest := StripLongDigitRuns(s[1..]);
      StripKeepsNonDigits(s[1..]);
      NonDigitsAppend([s[0]], rest);
      assert s == [s[0]] + s[1..];
      NonDigitsAppend([s[0]], s[1..]);
    } else {
      var n := DigitRunLen(s);
      var rest := StripLongDigitRuns(s[n..]);
      StripKeepsNonDigits(s[n..]);
      assert s == s[..n] + s[n..];
      NonDigitsAppend(s[..n], s[n..]);
      NonDigitsOfDigits(s[..n]);
      if n < 9 {
        NonDigitsAppend(s[..n], rest);
      } else {
        assert StripLongDigitRuns(s) == rest;
        assert NonDigits(s) == [] + NonDigits(s[n..]);
      }
    }
  }

  /** A text without long digit runs is left as it is: runs of eight digits or fewer
      survive. */
  lemma {:induction false} StripKeepsShortRuns(s: string)
    requires NoLongDigitRun(s)
    ensures StripLongDigitRuns(s) == s
    decreases |s|
  {
    if s != [] {
      if !IsDecimalDigit(s[0]) {
        NoLongDigitRunSuffix(s, 1);
        StripKeepsShortRuns(s[1..]);
      } else {
        var n := DigitRunLen(s);
        assert DigitRunLen(s[0..]) < 9 by { assert s[0..] == s; }
        NoLongDigitRunSuffix(s, n);
        StripKeepsShortRuns(s[n..]);
        assert s == s[..n] + s[n..];
      }
    }
  }

  lemma NoLongDigitRunSuffix(s: string, k: nat)
    requires NoLongDigitRun(s) && k <= |s|
    ensures NoLongDigitRun(s[k..])
  {
    forall i | 0 <= i < |s[k..]|
      ensures DigitRunLen(s[k..][i..]) < 9
    {
      assert s[k..][i..] == s[k + i..];
    }
  }

  /** `_preprocess_text` of src/python/utils/embedding.py: whitespace collapsed, then
      every maximal run of nine or more digits deleted; non-strings rendered by
      `str()` without either step. */
  function PreprocessStripDigits(d: Document): (r: string)
    ensures d.Other? ==> r == d.repr
    ensures d.Str? ==> NoLongDigitRun(r) && NonDigits(r) == NonDigits(CollapseWhitespace(d.text))
  {
    match d
    case Other(repr) => repr
    case Str(text) =>
      var collapsed := CollapseWhitespace(text);
      StripSpec(collapsed);
      StripLongDigitRuns(collapsed)
  }

  /** Nine or more digits. */
  predicate IsLongDigitRun(d: string)
  {
    |d| >= 9 && forall i :: 0 <= i < |d| ==> IsDecimalDigit(d[i])
  }

  predicate HasNoDigit(t: string)
  {
    forall i :: 0 <= i < |t| ==> !IsDecimalDigit(t[i])
  }

  lemma {:induction false} StripNoDigits(t: string)
    requires HasNoDigit(t)
    ensures StripLongDigitRuns(t) == t
  {
    if t != [] {
      StripNoDigits(t[1..]);
    }
  }

  /** A digit-free prefix passes through stripping unchanged. */
  lemma {:induction false} StripNoDigitPrefix(a: string, z: string)
    requires HasNoDigit(a)
    ensures StripLongDigitRuns(a + z) == a + StripLongDigitRuns(z)
  {
    if a == [] {
      assert a + z == z;
    } else {
      var az := a + z;
      assert az[0] == a[0] && az[1..] == a[1..] + z;
      assert HasNoDigit(a[1..]) by {
        forall i | 0 <= i < |a[1..]| ensures !IsDecimalDigit(a[1..][i]) {
          assert a[1..][i] == a[i + 1];
        }
      }
      StripNoDigitPrefix(a[1..], z);
      assert [a[0]] + a[1..] == a;
    }
  }

  /** A run of nine or more digits followed by a clean text is deleted whole. */
  lemma StripLongRunPrefix(d: string, x: string)
    requires IsLongDigitRun(d) && StartsClean(x)
    ensures StripLongDigitRuns(d + x) == StripLongDigitRuns(x)
  {
    DigitRunLenAppend(d, x);
    var dx := d + x;
    assert dx[0] == d[0] && dx[|d|..] == x;
  }

  /** A run of one to eight digits followed by a clean text is kept whole, even when
      a long run comes later. */
  lemma StripShortRunPrefix(d: string, x: string)
    requires 1 <= |d| < 9 && (forall i :: 0 <= i < |d| ==> IsDecimalDigit(d[i]))
    requires StartsClean(x)
    ensures StripLongDigitRuns(d + x) == d + StripLongDigitRuns(x)
  {
    DigitRunLenAppend(d, x);
    var dx := d + x;
    assert dx[0] == d[0] && dx[..|d|] == d && dx[|d|..] == x;
  }

  /** A long digit run between two digit-free words is deleted together with nothing
      else, leaving a double space (`"a 123456789 b"` gives `"a  b"`); preprocessing
      that output again yields a different text, so this variant is not idempotent. */
  lemma StripDigitsNotIdempotent(a: string, d: string, b: string)
    requires IsWord(a) && IsWord(b) && HasNoDigit(a) && HasNoDigit(b)
    requires IsLongDigitRun(d)
    ensures PreprocessStripDigits(Str(a + " " + d + " " + b)) == a + "  " + b
    ensures PreprocessStripDigits(Str(a + "  " + b)) == a + " " + b
    ensures PreprocessStripDigits(Str(PreprocessStripDigits(Str(a + " " + d + " " + b))))
            != PreprocessStripDigits(Str(a + " " + d + " " + b))
  {
    ThreeWordsCollapsed(a, d, b);
    StripMiddleRun(a, d, b);
    SecondPass(a, b);
    assert |a + "  " + b| != |a + " " + b|;
  }

  lemma ThreeWordsCollapsed(a: string, d: string, b: string)
    requires IsWord(a) && IsWord(b) && IsWord(d)
    ensures CollapseWhitespace(a + " " + d + " " + b) == a + " " + d + " " + b
  {
    var s := a + " " + d + " " + b;
    assert [a, d, b][1..] == [d, b] && [d, b][1..] == [b];
    assert JoinWith([d, b], " ") == d + " " + b;
    assert JoinWith([a, d, b], " ") == a + " " + (d + " " + b);
    assert a + " " + (d + " " + b) == s;
    WordsOfJoin([a, d, b]);
  }

  lemma StripMiddleRun(a: string, d: string, b: string)
    requires HasNoDigit(a) && HasNoDigit(b)
    requires IsLongDigitRun(d)
    ensures StripLongDigitRuns(a + " " + d + " " + b) == a + "  " + b
  {
    var z := " " + (d + (" " + b));
    StripRunThenWord(d, b);
    StripLeadingSpace(d + (" " + b));
    StripNoDigitPrefix(a, z);
    assert a + " " + d + " " + b == a + z;
    assert a + (" " + (" " + b)) == a + "  " + b;
  }

  lemma StripRunThenWord(d: string, b: string)
    requires HasNoDigit(b)
    requires IsLongDigitRun(d)
    ensures StripLongDigitRuns(d + (" " + b)) == " " + b
  {
    var x := " " + b;
    assert HasNoDigit(x) by {
      forall i | 0 <= i < |x| ensures !IsDecimalDigit(x[i]) {
        if i > 0 { assert x[i] == b[i - 1]; }
      }
    }
    StripNoDigits(x);
    StripLongRunPrefix(d, x);
  }

  lemma StripLeadingSpace(y: string)
    ensures StripLongDigitRuns(" " + y) == " " + StripLongDigitRuns(y)
  {
    assert (" " + y)[1..] == y;
  }

  lemma SecondPass(a: string, b: string)
    requires IsWord(a) && IsWord(b) && HasNoDigit(a) && HasNoDigit(b)
    ensures PreprocessStripDigits(Str(a + "  " + b)) == a + " " + b
  {
    CollapseTwoWords([], a, "  ", b, []);
    assert [] + a + "  " + b + [] == a + "  " + b;
    var t := a + " " + b;
    assert HasNoDigit(t) by {
      forall i | 0 <= i < |t| ensures !IsDecimalDigit(t[i]) {
        if i < |a| { assert t[i] == a[i]; }
        else if i > |a| { assert t[i] == b[i - |a| - 1]; }
      }
    }
    StripNoDigits(t);
  }

  /** The preprocessing of `__call__` in src/python/utils/embedding.py: one text per
      document, in order. */
  function StripDigitsInputs(input: seq<Document>): (r: seq<string>)
    ensures |r| == |input|
    ensures forall i :: 0 <= i < |input| && input[i].Str? ==> NoLongDigitRun(r[i])
    ensures forall i :: 0 <= i < |input| && input[i].Other? ==> r[i] == input[i].repr
  {
    if input == [] then [] else [PreprocessStripDigits(input[0])] + StripDigitsInputs(input[1..])
  }
}
