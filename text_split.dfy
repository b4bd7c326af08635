/** Splitting text the way the sources do: Python's `str.split()` (on whitespace
    runs), JavaScript's `split(c)` on one character, and `split(/\r?\n/)`. */
module TextSplit {
  import opened Common

  // ---------------------------------------------------------------------------
  // Python `str.split()` and `' '.join(...)`

  /** A word of `str.split()`: non-empty and free of whitespace. */
  predicate IsWord(w: string)
  {
    w != [] && forall i :: 0 <= i < |w| ==> !IsPySpace(w[i])
  }

  /** Length of the leading run of non-whitespace characters. */
  function WordLen(s: string): (n: nat)
    ensures n <= |s|
    ensures forall i :: 0 <= i < n ==> !IsPySpace(s[i])
    ensures n < |s| ==> IsPySpace(s[n])
  {
    if s == [] || IsPySpace(s[0]) then 0 else 1 + WordLen(s[1..])
  }

  /** `s.split()`: the maximal whitespace-free runs of `s`, in order. */
  function Words(s: string): seq<string>
    decreases |s|
  {
    if s == [] then []
    else if IsPySpace(s[0]) then Words(s[1..])
    else
      var n := WordLen(s);
      [s[..n]] + Words(s[n..])
  }

  /** The characters of `s` that are not whitespace, in order. */
  function NonSpace(s: string): string
  {
    if s == [] then [] else (if IsPySpace(s[0]) then [] else [s[0]]) + NonSpace(s[1..])
  }

  lemma {:induction false} NonSpaceAppend(a: string, b: string)
    ensures NonSpace(a + b) == NonSpace(a) + NonSpace(b)
  {
    if a == [] {
      assert a + b == b;
    } else {
      assert (a + b)[1..] == a[1..] + b;
      NonSpaceAppend(a[1..], b);
    }
  }

  lemma {:induction false} NonSpaceOfWord(w: string)
    requires forall i :: 0 <= i < |w| ==> !IsPySpace(w[i])
    ensures NonSpace(w) == w
  {
    if w != [] {
      NonSpaceOfWord(w[1..]);
      assert w == [w[0]] + w[1..];
    }
  }

  /** Every piece of `s.split()` is a word, and together the pieces hold exactly
      the non-whitespace characters of `s`, in order. */
  lemma {:induction false} WordsSpec(s: string)
    ensures forall k :: 0 <= k < |Words(s)| ==> IsWord(Words(s)[k])
    ensures Concat(Words(s)) == NonSpace(s)
    decreases |s|
  {
    if s == [] {
    } else if IsPySpace(s[0]) {
      WordsSpec(s[1..]);
    } else {
      var n := WordLen(s);
      WordsSpec(s[n..]);
      assert s == s[..n] + s[n..];
      NonSpaceAppend(s[..n], s[n..]);
      NonSpaceOfWord(s[..n]);
    }
  }

  /** A string made only of whitespace has no words. */
  lemma {:induction false} WordsOfBlank(s: string)
    requires forall i :: 0 <= i < |s| ==> IsPySpace(s[i])
    ensures Words(s) == []
  {
    if s != [] {
      WordsOfBlank(s[1..]);
    }
  }

  /** A text is well spaced when it has no leading or trailing whitespace and every
      whitespace character is a single ' ' followed by a non-whitespace character. */
  predicate WellSpaced(t: string)
  {
    && (t != [] ==> !IsPySpace(t[0]) && !IsPySpace(t[|t| - 1]))
    && forall i :: 0 <= i < |t| && IsPySpace(t[i]) ==> t[i] == ' ' && i + 1 < |t| && !IsPySpace(t[i + 1])
  }

  /** Joining words with single spaces gives a well-spaced text. */
  lemma {:induction false} JoinWordsWellSpaced(ws: seq<string>)
    requires forall k :: 0 <= k < |ws| ==> IsWord(ws[k])
    ensures WellSpaced(JoinWith(ws, " "))
    ensures ws != [] ==> JoinWith(ws, " ") != [] && !IsPySpace(JoinWith(ws, " ")[0])
  {
    if |ws| > 1 {
      JoinWordsWellSpaced(ws[1..]);
      var t := JoinWith(ws[1..], " ");
      var w := ws[0];
      var r := w + " " + t;
      assert JoinWith(ws, " ") == r;
      assert forall j :: 0 <= j < |w| ==> r[j] == w[j];
      forall i | 0 <= i < |r| && IsPySpace(r[i])
        ensures r[i] == ' ' && i + 1 < |r| && !IsPySpace(r[i + 1])
      {
        if i == |w| {
          assert r[i + 1] == t[0];
        } else {
          assert r[i] == t[i - |w| - 1];
          if i + 1 < |r| {
            assert r[i + 1] == t[i - |w|];
          }
        }
      }
      assert r[0] == w[0];
      assert r[|r| - 1] == t[|t| - 1];
    }
  }

  /** The words of a single-space join are the joined words (`split` undoes `join`). */
  lemma {:induction false} WordsOfJoin(ws: seq<string>)
    requires forall k :: 0 <= k < |ws| ==> IsWord(ws[k])
    ensures Words(JoinWith(ws, " ")) == ws
  {
    if ws == [] {
    } else {
      var w := ws[0];
      WordLenOfWordThen(w, if |ws| == 1 then [] else " " + JoinWith(ws[1..], " "));
      if |ws| == 1 {
        assert JoinWith(ws, " ") == w + [];
        assert w + [] == w;
      } else {
        var t := JoinWith(ws[1..], " ");
        var r := w + " " + t;
        assert JoinWith(ws, " ") == w + (" " + t);
        assert r[..|w|] == w;
        assert r[|w|..] == " " + t;
        assert (" " + t)[1..] == t;
        WordsOfJoin(ws[1..]);
      }
    }
  }

  /** The first word of `w + rest` is `w` when `w` is a word and `rest` does not
      continue it. */
  lemma {:induction false} WordLenOfWordThen(w: string, rest: string)
    requires IsWord(w)
    requires rest == [] || IsPySpace(rest[0])
    ensures WordLen(w + rest) == |w|
    decreases |w|
  {
    if |w| > 1 {
      assert (w + rest)[1..] == w[1..] + rest;
      WordLenOfWordThen(w[1..], rest);
    } else {
      assert (w + rest)[1..] == rest;
    }
  }

  /** Leading whitespace does not change the words. */
  lemma {:induction false} WordsSkipBlank(blank: string, t: string)
    requires forall i :: 0 <= i < |blank| ==> IsPySpace(blank[i])
    ensures Words(blank + t) == Words(t)
  {
    if blank == [] {
      assert blank + t == t;
    } else {
      assert (blank + t)[1..] == blank[1..] + t;
      WordsSkipBlank(blank[1..], t);
    }
  }

  /** A word followed by whitespace (or nothing) is the first word. */
  lemma WordsTakeWord(w: string, rest: string)
    requires IsWord(w)
    requires rest == [] || IsPySpace(rest[0])
    ensures Words(w + rest) == [w] + Words(rest)
  {
    WordLenOfWordThen(w, rest);
    assert (w + rest)[..|w|] == w;
    assert (w + rest)[|w|..] == rest;
  }

  /** A well-spaced text is the single-space join of its own words. */
  lemma {:induction false} WellSpacedIsJoinOfWords(t: string)
    requires WellSpaced(t)
    ensures JoinWith(Words(t), " ") == t
    decreases |t|
  {
    if t != [] {
      var n := WordLen(t);
      assert n > 0;
      if n == |t| {
        assert t[n..] == [];
        assert Words(t) == [t[..n]];
        assert t[..n] == t;
      } else {
        assert t[n] == ' ' && n + 1 < |t| && !IsPySpace(t[n + 1]);
        var rest := t[n + 1..];
        assert t[n..][1..] == rest;
        assert Words(t[n..]) == Words(rest);
        WellSpacedSuffix(t, n + 1);
        WellSpacedIsJoinOfWords(rest);
        assert Words(rest) != [] by {
          assert WordLen(rest) > 0;
        }
        assert Words(t) == [t[..n]] + Words(rest);
        assert JoinWith(Words(t), " ") == t[..n] + " " + JoinWith(Words(rest), " ");
        assert t == t[..n] + " " + rest;
      }
    }
  }

  lemma WellSpacedSuffix(t: string, k: nat)
    requires WellSpaced(t) && 0 < k < |t| && !IsPySpace(t[k])
    ensures WellSpaced(t[k..])
  {
    var u := t[k..];
    forall i | 0 <= i < |u| && IsPySpace(u[i])
      ensures u[i] == ' ' && i + 1 < |u| && !IsPySpace(u[i + 1])
    {
      assert u[i] == t[k + i];
    }
  }

  // ---------------------------------------------------------------------------
  // JavaScript `split(c)` on one character, and `split(/\r?\n/)`

  /** Index of the first `c` in `s`, or `|s|` when there is none. */
  function IndexOf(s: string, c: char): (i: nat)
    ensures i <= |s|
    ensures i < |s| ==> s[i] == c
    ensures forall j :: 0 <= j < i ==> s[j] != c
  {
    if s == [] || s[0] == c then 0 else 1 + IndexOf(s[1..], c)
  }

  /** `s.split(c)` for a one-character separator: always at least one piece. */
  function SplitOn(s: string, c: char): seq<string>
    decreases |s|
  {
    var i := IndexOf(s, c);
    if i == |s| then [s] else [s[..i]] + SplitOn(s[i + 1..], c)
  }

  /** Splitting never yields no piece, no piece holds the separator, and joining the
      pieces with the separator gives back the text. */
  lemma {:induction false} SplitOnSpec(s: string, c: char)
    ensures |SplitOn(s, c)| >= 1
    ensures forall k :: 0 <= k < |SplitOn(s, c)| ==> c !in SplitOn(s, c)[k]
    ensures JoinWith(SplitOn(s, c), [c]) == s
    decreases |s|
  {
    var i := IndexOf(s, c);
    if i < |s| {
      SplitOnSpec(s[i + 1..], c);
      var rest := SplitOn(s[i + 1..], c);
      assert SplitOn(s, c) == [s[..i]] + rest;
      assert JoinWith(SplitOn(s, c), [c]) == s[..i] + [c] + JoinWith(rest, [c]);
      assert s == s[..i] + [c] + s[i + 1..];
    }
  }

  /** Joining separator-free pieces and splitting again gives back the pieces. */
  lemma {:induction false} SplitOnJoin(parts: seq<string>, c: char)
    requires |parts| >= 1
    requires forall k :: 0 <= k < |parts| ==> c !in parts[k]
    ensures SplitOn(JoinWith(parts, [c]), c) == parts
  {
    var p := parts[0];
    if |parts| == 1 {
      IndexOfAbsent(p, c, []);
    } else {
      var t := JoinWith(parts[1..], [c]);
      var s := p + [c] + t;
      assert JoinWith(parts, [c]) == s;
      IndexOfAbsent(p, c, [c] + t);
      assert s == p + ([c] + t);
      assert s[..|p|] == p;
      assert s[|p| + 1..] == t;
      SplitOnJoin(parts[1..], c);
    }
  }

  lemma {:induction false} IndexOfAbsent(p: string, c: char, rest: string)
    requires c !in p
    requires rest == [] || rest[0] == c
    ensures IndexOf(p + rest, c) == |p|
  {
    if p != [] {
      assert (p + rest)[1..] == p[1..] + rest;
      IndexOfAbsent(p[1..], c, rest);
    } else {
      assert p + rest == rest;
    }
  }

  /** The text of `s` before a trailing carriage return. */
  function DropTrailingCr(s: string): string
  {
    if s != [] && s[|s| - 1] == '\r' then s[..|s| - 1] else s
  }

  /** `text.split(/\r?\n/)`: the separator is the first "\n" together with a '\r'
      just before it. */
  function SplitLines(s: string): seq<string>
    decreases |s|
  {
    var i := IndexOf(s, '\n');
    if i == |s| then [s] else [DropTrailingCr(s[..i])] + SplitLines(s[i + 1..])
  }

  /** No line holds a line feed, and a text that ends with a line feed yields a last
      line that is empty. */
  lemma {:induction false} SplitLinesSpec(s: string)
    ensures |SplitLines(s)| >= 1
    ensures forall k :: 0 <= k < |SplitLines(s)| ==> '\n' !in SplitLines(s)[k]
    ensures s != [] && s[|s| - 1] == '\n' ==> SplitLines(s)[|SplitLines(s)| - 1] == ""
    decreases |s|
  {
    var i := IndexOf(s, '\n');
    if i < |s| {
      SplitLinesSpec(s[i + 1..]);
      var head := DropTrailingCr(s[..i]);
      assert forall j :: 0 <= j < |head| ==> head[j] == s[j];
      if s[|s| - 1] == '\n' && i + 1 == |s| {
        assert s[i + 1..] == [];
        assert SplitLines(s[i + 1..]) == [""];
      }
    }
  }
}
