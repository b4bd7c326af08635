/** Small shared vocabulary: optional values, error results and the character
    classes and substring tests that the Python and TypeScript sources rely on. */
module Common {

  /** A value that may be absent: Python's None / pandas NaN, or a missing key. */
  datatype Option<+T> = None | Some(value: T)

  /** The outcome of an operation that may raise (Python) or reject (TypeScript). */
  datatype Result<+T, +E> = Ok(value: T) | Err(error: E)

  /** Python's whitespace (`str.isspace`, `str.split()`, `str.strip()` and the regex
      class `\s` on str patterns). */
  predicate IsPySpace(c: char)
  {
    var n := c as int;
    (9 <= n <= 13) || (28 <= n <= 32) || n == 0x85 || n == 0xA0 || n == 0x1680
    || (0x2000 <= n <= 0x200A) || n == 0x2028 || n == 0x2029 || n == 0x202F
    || n == 0x205F || n == 0x3000
  }

  /** JavaScript's regex class `\s`. */
  predicate IsJsSpace(c: char)
  {
    var n := c as int;
    (9 <= n <= 13) || n == 32 || n == 0xA0 || n == 0x1680 || (0x2000 <= n <= 0x200A)
    || n == 0x2028 || n == 0x2029 || n == 0x202F || n == 0x205F || n == 0x3000
    || n == 0xFEFF
  }

  /** The regex class `\d` on str patterns, restricted to ASCII and full-width digits. */
  predicate IsDecimalDigit(c: char)
  {
    ('0' <= c <= '9') || (0xFF10 <= c as int <= 0xFF19)
  }

  predicate IsAsciiUpper(c: char)
  {
    'A' <= c <= 'Z'
  }

  /** `str.startswith` / `String.prototype.startsWith`. */
  predicate StartsWith(s: string, prefix: string)
  {
    |prefix| <= |s| && s[..|prefix|] == prefix
  }

  /** `sub in s` / `s.includes(sub)`. */
  predicate Contains(s: string, sub: string)
    decreases |s|
  {
    StartsWith(s, sub) || (s != [] && Contains(s[1..], sub))
  }

  /** ASCII lower-casing, the part of `str.lower()` / `toLowerCase()` the model keeps. */
  function ToLower(s: string): (r: string)
    ensures |r| == |s|
    ensures forall i :: 0 <= i < |r| ==> !IsAsciiUpper(r[i])
    ensures forall i :: 0 <= i < |s| && !IsAsciiUpper(s[i]) ==> r[i] == s[i]
  {
    if s == [] then []
    else [if IsAsciiUpper(s[0]) then (s[0] as int + 32) as char else s[0]] + ToLower(s[1..])
  }

  /** `s.replace(/c/g, "")` and `str.replace(c, '')`: every occurrence of `c` removed. */
  function RemoveChar(s: string, c: char): (r: string)
  {
    if s == [] then []
    else (if s[0] == c then [] else [s[0]]) + RemoveChar(s[1..], c)
  }

  /** Removing a character leaves no occurrence of it, keeps every other character
      with its multiplicity, and does not lengthen the string. */
  lemma {:induction false} RemoveCharSpec(s: string, c: char)
    ensures c !in RemoveChar(s, c)
    ensures |RemoveChar(s, c)| <= |s|
    ensures forall d :: d != c ==> multiset(RemoveChar(s, c))[d] == multiset(s)[d]
  {
    if s != [] {
      RemoveCharSpec(s[1..], c);
      assert s == [s[0]] + s[1..];
    }
  }

  /** Removing works piece by piece, so the characters kept stay in their order. */
  lemma {:induction false} RemoveCharAppend(a: string, b: string, c: char)
    ensures RemoveChar(a + b, c) == RemoveChar(a, c) + RemoveChar(b, c)
  {
    if a == [] {
      assert a + b == b;
    } else {
      var head: string := if a[0] == c then [] else [a[0]];
      RemoveCharAppend(a[1..], b, c);
      assert (a + b)[0] == a[0] && (a + b)[1..] == a[1..] + b;
      calc {
        RemoveChar(a + b, c);
        head + RemoveChar(a[1..] + b, c);
        head + (RemoveChar(a[1..], c) + RemoveChar(b, c));
        (head + RemoveChar(a[1..], c)) + RemoveChar(b, c);
        RemoveChar(a, c) + RemoveChar(b, c);
      }
    }
  }

  lemma RemoveCharSplit(s: string, c: char, k: nat)
    requires k <= |s|
    ensures RemoveChar(s, c) == RemoveChar(s[..k], c) + RemoveChar(s[k..], c)
  {
    var x, y := s[..k], s[k..];
    assert x + y == s;
    RemoveCharAppend(x, y, c);
  }

  /** A string without `c` is left as it is. */
  lemma {:induction false} RemoveCharAbsent(s: string, c: char)
    requires c !in s
    ensures RemoveChar(s, c) == s
  {
    if s != [] {
      RemoveCharAbsent(s[1..], c);
      assert s == [s[0]] + s[1..];
    }
  }

  /** Concatenation of a sequence of strings, `"".join(parts)`. */
  function Concat(parts: seq<string>): string
  {
    if parts == [] then [] else parts[0] + Concat(parts[1..])
  }

  /** `sep.join(parts)` / `parts.join(sep)`. */
  function JoinWith(parts: seq<string>, sep: string): string
  {
    if parts == [] then []
    else if |parts| == 1 then parts[0]
    else parts[0] + sep + JoinWith(parts[1..], sep)
  }

  /** Number of elements of `s` that equal `x`. */
  function Occurrences<T(==)>(s: seq<T>, x: T): nat
  {
    multiset(s)[x]
  }
}
