/** Line handling of the bill exports before CSV parsing: the divider windows of the
    Python Alipay and WeChat formatters and of the TypeScript Alipay formatter, the
    removal of whitespace before commas, and Python's `str.strip`. */
module BillLines {
  import opened Common

  /** `n` dashes. */
  function Dashes(n: nat): (d: string)
    ensures |d| == n && forall i :: 0 <= i < n ==> d[i] == '-'
  {
    seq(n, i => '-')
  }

  /** The Python formatters open their window at a line of 22 dashes ... */
  predicate Opening(line: string)
  {
    StartsWith(line, Dashes(22))
  }

  /** ... and the Alipay copies close it at a line of 28 dashes. */
  predicate Closing(line: string)
  {
    StartsWith(line, Dashes(28))
  }

  /** Every closing line would also open, and a line of 22 to 27 dashes followed by
      other text opens but does not close. */
  lemma ClosingOpens(line: string)
    ensures Closing(line) ==> Opening(line)
    ensures forall n :: 22 <= n < 28 ==> Opening(Dashes(n) + "x") && !Closing(Dashes(n) + "x")
  {
    forall n | 22 <= n < 28
      ensures Opening(Dashes(n) + "x") && !Closing(Dashes(n) + "x")
    {
      var l := Dashes(n) + "x";
      assert l[..22] == Dashes(22);
      assert l[n] == 'x';
    }
  }

  /** The first index at or after `from` whose line satisfies `p`, or `|lines|`. */
  function FirstFrom(lines: seq<string>, from: nat, p: string -> bool): (k: nat)
    requires from <= |lines|
    ensures from <= k <= |lines|
    ensures k < |lines| ==> p(lines[k])
    ensures forall j :: from <= j < k ==> !p(lines[j])
    decreases |lines| - from
  {
    if from == |lines| || p(lines[from]) then from else FirstFrom(lines, from + 1, p)
  }

  // ---------------------------------------------------------------------------
  // Whitespace before a comma: `re.sub(r"\s+,", ",", line)` and
  // `line.replace(/[\s]+,/g, ",")`, over the whitespace class `isSpace`.

  /** Length of the whitespace run at the start of `s`. */
  function SpaceRun(s: string, isSpace: char -> bool): (n: nat)
    ensures n <= |s|
    ensures forall j :: 0 <= j < n ==> isSpace(s[j])
    ensures n < |s| ==> !isSpace(s[n])
  {
    if s == [] || !isSpace(s[0]) then 0 else 1 + SpaceRun(s[1..], isSpace)
  }

  /** Every whitespace run that ends at a comma is removed, the comma kept; scanning
      resumes after the comma. */
  function DropSpaceBeforeComma(s: string, isSpace: char -> bool): string
    decreases |s|
  {
    if s == [] then []
    else if !isSpace(s[0]) then [s[0]] + DropSpaceBeforeComma(s[1..], isSpace)
    else
      var n := SpaceRun(s, isSpace);
      if n < |s| && s[n] == ',' then [','] + DropSpaceBeforeComma(s[n + 1..], isSpace)
      else s[..n] + DropSpaceBeforeComma(s[n..], isSpace)
  }

  /** No whitespace character stands directly before a comma. */
  predicate NoSpaceBeforeComma(s: string, isSpace: char -> bool)
  {
    forall i :: 0 <= i < |s| - 1 ==> !(isSpace(s[i]) && s[i + 1] == ',')
  }

  /** The characters that are not whitespace, in order. */
  function Solid(s: string, isSpace: char -> bool): string
  {
    if s == [] then [] else (if isSpace(s[0]) then [] else [s[0]]) + Solid(s[1..], isSpace)
  }

  lemma {:induction false} SolidAppend(a: string, b: string, isSpace: char -> bool)
    ensures Solid(a + b, isSpace) == Solid(a, isSpace) + Solid(b, isSpace)
  {
    if a == [] {
      assert a + b == b;
    } else {
      var head: string := if isSpace(a[0]) then [] else [a[0]];
      SolidAppend(a[1..], b, isSpace);
      assert (a + b)[0] == a[0];
      assert (a + b)[1..] == a[1..] + b;
      calc {
        Solid(a + b, isSpace);
        head + Solid(a[1..] + b, isSpace);
        head + (Solid(a[1..], isSpace) + Solid(b, isSpace));
        (head + Solid(a[1..], isSpace)) + Solid(b, isSpace);
        Solid(a, isSpace) + Solid(b, isSpace);
      }
    }
  }

  lemma {:induction false} SolidOfSpaces(s: string, isSpace: char -> bool)
    requires forall j :: 0 <= j < |s| ==> isSpace(s[j])
    ensures Solid(s, isSpace) == []
  {
    if s != [] {
      SolidOfSpaces(s[1..], isSpace);
    }
  }

  /** The cleaned line starts like the line, or with the comma a leading run led to. */
  lemma DropHead(s: string, isSpace: char -> bool)
    requires s != []
    ensures DropSpaceBeforeComma(s, isSpace) != []
    ensures !isSpace(s[0]) ==> DropSpaceBeforeComma(s, isSpace)[0] == s[0]
    ensures DropSpaceBeforeComma(s, isSpace)[0] == s[0] || DropSpaceBeforeComma(s, isSpace)[0] == ','
  {
  }

  /** Gluing two strings free of whitespace before commas keeps them so, unless the
      seam puts whitespace before a comma. */
  lemma NoSpaceBeforeCommaAppend(a: string, b: string, isSpace: char -> bool)
    requires NoSpaceBeforeComma(a, isSpace) && NoSpaceBeforeComma(b, isSpace)
    requires a != [] && b != [] ==> !(isSpace(a[|a| - 1]) && b[0] == ',')
    ensures NoSpaceBeforeComma(a + b, isSpace)
  {
    var r := a + b;
    forall i | 0 <= i < |r| - 1
      ensures !(isSpace(r[i]) && r[i + 1] == ',')
    {
      if i + 1 < |a| {
        assert r[i] == a[i] && r[i + 1] == a[i + 1];
      } else if i + 1 == |a| {
        assert r[i] == a[|a| - 1] && r[i + 1] == b[0];
      } else {
        assert r[i] == b[i - |a|] && r[i + 1] == b[i - |a| + 1];
      }
    }
  }

  /** After the cleanup no whitespace precedes a comma, and the characters other than
      whitespace are exactly those of the line, in order. */
  lemma {:induction false} DropSpaceBeforeCommaSpec(s: string, isSpace: char -> bool)
    requires !isSpace(',')
    ensures NoSpaceBeforeComma(DropSpaceBeforeComma(s, isSpace), isSpace)
    ensures Solid(DropSpaceBeforeComma(s, isSpace), isSpace) == Solid(s, isSpace)
    decreases |s|
  {
    if s == [] {
      return;
    }
    var r := DropSpaceBeforeComma(s, isSpace);
    if !isSpace(s[0]) {
      var rest := DropSpaceBeforeComma(s[1..], isSpace);
      DropSpaceBeforeCommaSpec(s[1..], isSpace);
      assert r == [s[0]] + rest;
      NoSpaceBeforeCommaAppend([s[0]], rest, isSpace);
      return;
    }
    var n := SpaceRun(s, isSpace);
    SolidOfSpaces(s[..n], isSpace);
    assert NoSpaceBeforeComma(s[..n], isSpace) by {
      forall i | 0 <= i < n - 1
        ensures !(isSpace(s[..n][i]) && s[..n][i + 1] == ',')
      {
        assert s[..n][i + 1] == s[i + 1];
      }
    }
    if n < |s| && s[n] == ',' {
      var rest := DropSpaceBeforeComma(s[n + 1..], isSpace);
      DropSpaceBeforeCommaSpec(s[n + 1..], isSpace);
      assert r == [','] + rest;
      NoSpaceBeforeCommaAppend([','], rest, isSpace);
      assert s == s[..n] + ([','] + s[n + 1..]);
      SolidAppend(s[..n], [','] + s[n + 1..], isSpace);
      assert ([','] + s[n + 1..])[1..] == s[n + 1..];
    } else {
      var rest := DropSpaceBeforeComma(s[n..], isSpace);
      DropSpaceBeforeCommaSpec(s[n..], isSpace);
      assert r == s[..n] + rest;
      if n < |s| {
        DropHead(s[n..], isSpace);
      }
      NoSpaceBeforeCommaAppend(s[..n], rest, isSpace);
      assert s == s[..n] + s[n..];
      SolidAppend(s[..n], s[n..], isSpace);
      SolidAppend(s[..n], rest, isSpace);
    }
  }

  /** A whitespace run directly before a comma goes, the comma stays. */
  lemma DropSpaceRunComma(w: string, b: string, isSpace: char -> bool)
    requires !isSpace(',')
    requires forall j :: 0 <= j < |w| ==> isSpace(w[j])
    ensures DropSpaceBeforeComma(w + "," + b, isSpace) == "," + DropSpaceBeforeComma(b, isSpace)
  {
    var s := w + "," + b;
    assert s[|w|] == ',' && s[|w| + 1..] == b;
    if w == [] {
      assert s == "," + b && s[1..] == b;
    } else {
      assert SpaceRun(s, isSpace) == |w| by {
        SpaceRunPrefix(w, "," + b, isSpace);
        assert s == w + ("," + b);
      }
    }
  }

  /** The run at the start of `w + t` is `w` when `t` does not start with whitespace. */
  lemma {:induction false} SpaceRunPrefix(w: string, t: string, isSpace: char -> bool)
    requires forall j :: 0 <= j < |w| ==> isSpace(w[j])
    requires t == [] || !isSpace(t[0])
    ensures SpaceRun(w + t, isSpace) == |w|
  {
    if w != [] {
      SpaceRunPrefix(w[1..], t, isSpace);
      assert (w + t)[1..] == w[1..] + t;
    } else {
      assert w + t == t;
    }
  }

  /** A stretch with no whitespace before a comma and not ending in whitespace passes
      through unchanged, whatever follows it: whitespace that does not end at a comma
      is kept. */
  lemma {:induction false} DropSpaceBeforeCommaKeeps(a: string, b: string, isSpace: char -> bool)
    requires NoSpaceBeforeComma(a, isSpace)
    requires a != [] ==> !isSpace(a[|a| - 1])
    ensures DropSpaceBeforeComma(a + b, isSpace) == a + DropSpaceBeforeComma(b, isSpace)
    decreases |a|
  {
    if a == [] {
      assert a + b == b;
    } else {
      var k := if isSpace(a[0]) then SpaceRun(a, isSpace) else 1;
      DropKeepsStep(a, b, isSpace, k);
      var head, tail := a[..k], a[k..];
      NoSpaceBeforeCommaSuffix(a, k, isSpace);
      assert tail != [] ==> tail[|tail| - 1] == a[|a| - 1];
      DropSpaceBeforeCommaKeeps(tail, b, isSpace);
      var rest := DropSpaceBeforeComma(b, isSpace);
      assert DropSpaceBeforeComma(a + b, isSpace) == head + (tail + rest);
      assert head + (tail + rest) == (head + tail) + rest;
      assert head + tail == a;
    }
  }

  /** One step of the cleanup over `a + b`: a non-space character, or the whitespace
      run that starts `a`, which ends before a character other than a comma. */
  lemma DropKeepsStep(a: string, b: string, isSpace: char -> bool, k: nat)
    requires NoSpaceBeforeComma(a, isSpace) && a != [] && !isSpace(a[|a| - 1])
    requires k == if isSpace(a[0]) then SpaceRun(a, isSpace) else 1
    ensures 0 < k < |a| || (k == |a| && !isSpace(a[0]))
    ensures DropSpaceBeforeComma(a + b, isSpace) == a[..k] + DropSpaceBeforeComma(a[k..] + b, isSpace)
  {
    var s := a + b;
    if !isSpace(a[0]) {
      assert s[0] == a[0] && s[1..] == a[1..] + b;
    } else {
      assert k < |a|;
      assert SpaceRun(s, isSpace) == k by {
        SpaceRunPrefix(a[..k], a[k..] + b, isSpace);
        assert s == a[..k] + (a[k..] + b);
      }
      assert a[k] != ',' by {
        assert isSpace(a[k - 1]);
      }
      assert s[k] == a[k] && s[..k] == a[..k] && s[k..] == a[k..] + b;
    }
  }

  lemma NoSpaceBeforeCommaSuffix(a: string, k: nat, isSpace: char -> bool)
    requires NoSpaceBeforeComma(a, isSpace) && k <= |a|
    ensures NoSpaceBeforeComma(a[k..], isSpace)
  {
    forall i | 0 <= i < |a[k..]| - 1
      ensures !(isSpace(a[k..][i]) && a[k..][i + 1] == ',')
    {
      assert a[k..][i] == a[k + i] && a[k..][i + 1] == a[k + i + 1];
    }
  }

  /** A line with no whitespace before a comma is left as it is; in particular the
      cleanup is idempotent. */
  lemma {:induction false} DropSpaceBeforeCommaClean(s: string, isSpace: char -> bool)
    requires NoSpaceBeforeComma(s, isSpace)
    ensures DropSpaceBeforeComma(s, isSpace) == s
    decreases |s|
  {
    if s == [] {
      return;
    }
    if !isSpace(s[0]) {
      DropSpaceBeforeCommaClean(s[1..], isSpace);
      assert s == [s[0]] + s[1..];
      return;
    }
    var n := SpaceRun(s, isSpace);
    assert !(n < |s| && s[n] == ',') by {
      assert n >= 1 && isSpace(s[n - 1]);
      assert 0 <= n - 1 < |s| - 1 ==> !(isSpace(s[n - 1]) && s[n - 1 + 1] == ',');
    }
    assert NoSpaceBeforeComma(s[n..], isSpace) by {
      forall i | 0 <= i < |s[n..]| - 1
        ensures !(isSpace(s[n..][i]) && s[n..][i + 1] == ',')
      {
        assert s[n..][i] == s[n + i] && s[n..][i + 1] == s[n + i + 1];
      }
    }
    DropSpaceBeforeCommaClean(s[n..], isSpace);
    assert s == s[..n] + s[n..];
  }

  // ---------------------------------------------------------------------------
  // `str.strip()`, over the whitespace class `isSpace`

  /** Length of the whitespace run at the end of `s`. */
  function TrailingSpace(s: string, isSpace: char -> bool): (n: nat)
    ensures n <= |s|
    ensures forall j :: |s| - n <= j < |s| ==> isSpace(s[j])
    ensures n < |s| ==> !isSpace(s[|s| - n - 1])
  {
    if s == [] || !isSpace(s[|s| - 1]) then 0 else 1 + TrailingSpace(s[..|s| - 1], isSpace)
  }

  /** `s.strip()`: leading and trailing whitespace removed. */
  function Strip(s: string, isSpace: char -> bool): string
  {
    var t := s[SpaceRun(s, isSpace)..];
    t[..|t| - TrailingSpace(t, isSpace)]
  }

  /** The stripped line is a slice of the line with only whitespace cut off on either
      side, and neither starts nor ends with whitespace. */
  lemma StripSpec(s: string, isSpace: char -> bool)
    ensures var r := Strip(s, isSpace);
            && (r == [] || (!isSpace(r[0]) && !isSpace(r[|r| - 1])))
            && exists i, j :: 0 <= i <= j <= |s| && r == s[i..j]
                 && (forall k :: 0 <= k < i ==> isSpace(s[k]))
                 && (forall k :: j <= k < |s| ==> isSpace(s[k]))
  {
    var i := SpaceRun(s, isSpace);
    var t := s[i..];
    var n := TrailingSpace(t, isSpace);
    var j := i + |t| - n;
    assert t[..|t| - n] == s[i..j];
    forall k | j <= k < |s|
      ensures isSpace(s[k])
    {
      assert s[k] == t[k - i];
    }
  }

  /** Stripping twice is stripping once. */
  lemma StripIdempotent(s: string, isSpace: char -> bool)
    ensures Strip(Strip(s, isSpace), isSpace) == Strip(s, isSpace)
  {
    var r := Strip(s, isSpace);
    StripSpec(s, isSpace);
    if r != [] {
      assert SpaceRun(r, isSpace) == 0;
      assert r[0..] == r;
      assert TrailingSpace(r, isSpace) == 0;
    }
  }

  // ---------------------------------------------------------------------------
  // The windows

  /** One kept Alipay line: whitespace before commas removed (Python's `\s`). */
  function CleanAll(lines: seq<string>): (r: seq<string>)
    ensures |r| == |lines| && forall k :: 0 <= k < |lines| ==> r[k] == DropSpaceBeforeComma(lines[k], IsPySpace)
  {
    seq(|lines|, k requires 0 <= k < |lines| => DropSpaceBeforeComma(lines[k], IsPySpace))
  }

  /** The Alipay window: the cleaned lines strictly between the first opening line and
      the first closing line after it; nothing when no line opens. */
  function AlipayWindow(lines: seq<string>): seq<string>
  {
    var o := FirstFrom(lines, 0, Opening);
    if o == |lines| then [] else CleanAll(lines[o + 1..FirstFrom(lines, o + 1, Closing)])
  }

  /** The line loop of `alipay_format` (src/lib/alipay_formatter.py lines 8-22, the
      same loop as src/python/lib/alipay_formatter.py lines 8-22). */
  method AlipayLines(lines: seq<string>) returns (csvdata: seq<string>)
    ensures csvdata == AlipayWindow(lines)
  {
    csvdata := [];
    var flag := false;
    var i := 0;
    while i < |lines|
      invariant 0 <= i <= |lines|
      invariant !flag ==> csvdata == [] && forall j :: 0 <= j < i ==> !Opening(lines[j])
      invariant flag ==>
                  var o := FirstFrom(lines, 0, Opening);
                  && o < i
                  && (forall j :: o < j < i ==> !Closing(lines[j]))
                  && csvdata == CleanAll(lines[o + 1..i])
    {
      var line := lines[i];
      if !flag {
        if Opening(line) {
          flag := true;
        }
        i := i + 1;
        continue;
      }
      if Closing(line) {
        break;
      }
      csvdata := csvdata + [DropSpaceBeforeComma(line, IsPySpace)];
      i := i + 1;
    }
  }

  /** The window holds no line from before the opening line, stops before the first
      closing line, and keeps later lines of 22 to 27 dashes as data. */
  lemma AlipayWindowSpec(lines: seq<string>)
    ensures (forall j :: 0 <= j < |lines| ==> !Opening(lines[j])) ==> AlipayWindow(lines) == []
    ensures var o := FirstFrom(lines, 0, Opening);
            o < |lines| ==>
              var c := FirstFrom(lines, o + 1, Closing);
              && |AlipayWindow(lines)| == c - o - 1
              && forall k :: 0 <= k < c - o - 1 ==> AlipayWindow(lines)[k] == DropSpaceBeforeComma(lines[o + 1 + k], IsPySpace)
  {
  }

  /** The WeChat window: every line after the first opening line, stripped; there is
      no closing line. */
  function WechatWindow(lines: seq<string>): (r: seq<string>)
    ensures var o := FirstFrom(lines, 0, Opening);
            && (o == |lines| ==> r == [])
            && (o < |lines| ==> |r| == |lines| - o - 1 && forall k :: 0 <= k < |r| ==> r[k] == Strip(lines[o + 1 + k], IsPySpace))
  {
    var o := FirstFrom(lines, 0, Opening);
    if o == |lines| then [] else seq(|lines| - o - 1, k requires 0 <= k < |lines| - o - 1 => Strip(lines[o + 1 + k], IsPySpace))
  }

  /** The line loop of `wechat_format` (src/backend/utils/formatter/wechat_formatter.py
      lines 18-25, the same loop as src/python/utils/formatter/wechat_formatter.py
      lines 8-15). */
  method WechatLines(lines: seq<string>) returns (csvdata: seq<string>)
    ensures csvdata == WechatWindow(lines)
  {
    csvdata := [];
    var start := false;
    var i := 0;
    while i < |lines|
      invariant 0 <= i <= |lines|
      invariant !start ==> csvdata == [] && forall j :: 0 <= j < i ==> !Opening(lines[j])
      invariant start ==>
                  var o := FirstFrom(lines, 0, Opening);
                  && o < i
                  && csvdata == seq(i - o - 1, k requires 0 <= k < i - o - 1 => Strip(lines[o + 1 + k], IsPySpace))
    {
      var line := lines[i];
      if !start {
        if Opening(line) {
          start := true;
        }
      } else {
        csvdata := csvdata + [Strip(line, IsPySpace)];
      }
      i := i + 1;
    }
  }

  // ---------------------------------------------------------------------------
  // The divider toggle of src/formatter/aliPayFormatter.ts

  /** A divider of the TypeScript Alipay formatter: a line starting with 8 dashes. */
  predicate IsDivider(line: string)
  {
    StartsWith(line, Dashes(8))
  }

  /** The lines the filter keeps when it starts with flag `on`: each divider flips the
      flag and is dropped; other lines are kept while the flag is on. */
  function Toggled(lines: seq<string>, on: bool): seq<string>
  {
    if lines == [] then []
    else if IsDivider(lines[0]) then Toggled(lines[1..], !on)
    else (if on then [lines[0]] else []) + Toggled(lines[1..], on)
  }

  /** The `filter` of lines 17-31 with its captured flag. */
  method ToggleFilter(lines: seq<string>) returns (kept: seq<string>)
    ensures kept == Toggled(lines, false)
  {
    kept := [];
    var flag := false;
    var i := 0;
    while i < |lines|
      invariant 0 <= i <= |lines|
      invariant kept + Toggled(lines[i..], flag) == Toggled(lines, false)
    {
      var line := lines[i];
      assert lines[i..][1..] == lines[i + 1..];
      var isDividerLine := IsDivider(line);
      if !flag {
        if isDividerLine {
          flag := true;
        }
      } else if isDividerLine {
        flag := false;
      } else {
        kept := kept + [line];
      }
      i := i + 1;
    }
  }

  /** No divider line is ever kept. */
  lemma {:induction false} ToggledHasNoDivider(lines: seq<string>, on: bool)
    ensures forall l :: l in Toggled(lines, on) ==> !IsDivider(l)
  {
    if lines != [] {
      ToggledHasNoDivider(lines[1..], !on);
      ToggledHasNoDivider(lines[1..], on);
    }
  }

  /** Divider-free lines are all kept while the flag is on and all dropped while it is
      off, and the flag is unchanged after them. */
  lemma {:induction false} ToggledPlain(a: seq<string>, rest: seq<string>, on: bool)
    requires forall j :: 0 <= j < |a| ==> !IsDivider(a[j])
    ensures Toggled(a + rest, on) == (if on then a else []) + Toggled(rest, on)
  {
    if a == [] {
      assert a + rest == rest;
    } else {
      ToggledPlain(a[1..], rest, on);
      assert (a + rest)[0] == a[0];
      assert (a + rest)[1..] == a[1..] + rest;
      if on {
        assert a == [a[0]] + a[1..];
      }
    }
  }

  /** What lies before the first divider is dropped, what lies between the first and
      the second is kept, and after the second the filter starts over. */
  lemma TogglePairs(a: seq<string>, d1: string, b: seq<string>, d2: string, c: seq<string>)
    requires forall j :: 0 <= j < |a| ==> !IsDivider(a[j])
    requires forall j :: 0 <= j < |b| ==> !IsDivider(b[j])
    requires IsDivider(d1) && IsDivider(d2)
    ensures Toggled(a + [d1] + b + [d2] + c, false) == b + Toggled(c, false)
  {
    var tail := [d2] + c;
    var mid := b + tail;
    var started := [d1] + mid;
    assert a + [d1] + b + [d2] + c == a + started;
    ToggledPlain(a, started, false);
    assert Toggled(a + started, false) == Toggled(started, false);
    assert started[0] == d1 && started[1..] == mid;
    assert Toggled(started, false) == Toggled(mid, true);
    ToggledPlain(b, tail, true);
    assert tail[0] == d2 && tail[1..] == c;
    assert Toggled(tail, true) == Toggled(c, false);
  }
}
