/** The few `str` operations the measurement code relies on: strip, lower, split, prefix/suffix tests. */
module Text {
  /** `str.isspace()` on one character, as `str.strip()` with no argument uses it. */
  predicate IsSpace(c: char)
  {
    c == ' ' || ('\t' <= c <= '\r') || ('\U{1C}' <= c <= '\U{1F}')
    || c == '\U{85}' || c == '\U{A0}' || c == '\U{1680}' || ('\U{2000}' <= c <= '\U{200A}')
    || c == '\U{2028}' || c == '\U{2029}' || c == '\U{202F}' || c == '\U{205F}' || c == '\U{3000}'
  }

  /** `s.lstrip()`: the suffix left after dropping the leading whitespace. */
  function StripLeft(s: string): (r: string)
    ensures |r| <= |s| && r == s[|s| - |r|..]
    ensures r == [] || !IsSpace(r[0])
    ensures forall i :: 0 <= i < |s| - |r| ==> IsSpace(s[i])
  {
    if s != [] && IsSpace(s[0]) then StripLeft(s[1..]) else s
  }

  /** `s.rstrip()`: the prefix left after dropping the trailing whitespace. */
  function StripRight(s: string): (r: string)
    ensures |r| <= |s| && r == s[..|r|]
    ensures r == [] || !IsSpace(r[|r| - 1])
    ensures forall i :: |r| <= i < |s| ==> IsSpace(s[i])
  {
    if s != [] && IsSpace(s[|s| - 1]) then StripRight(s[..|s| - 1]) else s
  }

  /** `s.strip()`. */
  function Strip(s: string): string
  {
    StripRight(StripLeft(s))
  }

  /** A string whose ends are not whitespace (or that is empty) is its own strip. */
  lemma StripNoSpaceEnds(s: string)
    requires s == [] || (!IsSpace(s[0]) && !IsSpace(s[|s| - 1]))
    ensures Strip(s) == s
  {
  }

  /** One blank on each side of such a string is stripped away. */
  lemma StripPadding(s: string)
    requires s == [] || (!IsSpace(s[0]) && !IsSpace(s[|s| - 1]))
    ensures Strip([' '] + s + [' ']) == s
  {
    var t := [' '] + s + [' '];
    assert t[1..] == s + [' '];
    assert StripLeft(t) == StripLeft(s + [' ']);
    if s == [] {
      assert StripLeft([' ']) == StripLeft([]);
    } else {
      assert (s + [' '])[0] == s[0];
      assert StripLeft(s + [' ']) == s + [' '];
      assert (s + [' '])[..|s|] == s;
    }
  }

  /** The result of strip has nothing left to strip at either end. */
  lemma StripEnds(s: string)
    ensures Strip(s) == [] || (!IsSpace(Strip(s)[0]) && !IsSpace(Strip(s)[|Strip(s)| - 1]))
  {
    var l := StripLeft(s);
    var r := StripRight(l);
    if r != [] {
      assert r[0] == l[0];
    }
  }

  lemma StripIdempotent(s: string)
    ensures Strip(Strip(s)) == Strip(s)
  {
    StripEnds(s);
    StripNoSpaceEnds(Strip(s));
  }

  /** `str.lower()` restricted to ASCII letters. */
  function LowerChar(c: char): char
  {
    if 'A' <= c <= 'Z' then (c as int + 32) as char else c
  }

  function Lower(s: string): (r: string)
    ensures |r| == |s|
  {
    seq(|s|, i requires 0 <= i < |s| => LowerChar(s[i]))
  }

  /** Lowering changes no character into or out of whitespace, and is idempotent. */
  lemma LowerKeepsSpaces(s: string)
    ensures forall i :: 0 <= i < |s| ==> (IsSpace(Lower(s)[i]) <==> IsSpace(s[i]))
    ensures Lower(Lower(s)) == Lower(s)
  {
  }

  function StartsWith(s: string, p: string): bool
  {
    |p| <= |s| && s[..|p|] == p
  }

  function EndsWith(s: string, p: string): bool
  {
    |p| <= |s| && s[|s| - |p|..] == p
  }

  lemma EndsWithAppend(s: string, p: string)
    ensures EndsWith(s + p, p)
  {
    assert (s + p)[|s + p| - |p|..] == p;
  }

  /** Number of occurrences of c in s. */
  function Count(s: string, c: char): nat
  {
    if s == [] then 0 else (if s[0] == c then 1 else 0) + Count(s[1..], c)
  }

  /** `s.split(sep)` for a one-character separator. */
  function Split(s: string, sep: char): (parts: seq<string>)
    ensures |parts| == Count(s, sep) + 1
  {
    if s == [] then [[]]
    else
      var rest := Split(s[1..], sep);
      if s[0] == sep then [[]] + rest else [[s[0]] + rest[0]] + rest[1..]
  }

  /** `sep.join(parts)`. */
  function Join(parts: seq<string>, sep: char): string
  {
    if parts == [] then []
    else if |parts| == 1 then parts[0]
    else parts[0] + [sep] + Join(parts[1..], sep)
  }

  /** Splitting loses nothing: joining the parts back gives the original string. */
  lemma {:induction false} JoinSplit(s: string, sep: char)
    ensures Join(Split(s, sep), sep) == s
    decreases |s|
  {
    if s != [] {
      var rest := Split(s[1..], sep);
      JoinSplit(s[1..], sep);
      if s[0] == sep {
        assert Split(s, sep) == [[]] + rest;
        assert Join(Split(s, sep), sep) == [] + [sep] + Join(rest, sep);
      } else {
        var parts := Split(s, sep);
        assert parts == [[s[0]] + rest[0]] + rest[1..];
        if |rest| == 1 {
          assert Join(parts, sep) == [s[0]] + rest[0];
        } else {
          assert parts[1..] == rest[1..];
          assert Join(rest, sep) == rest[0] + [sep] + Join(rest[1..], sep);
          assert Join(parts, sep) == ([s[0]] + rest[0]) + [sep] + Join(rest[1..], sep);
        }
      }
    }
  }

  lemma {:induction false} SplitNoSeparator(s: string, sep: char)
    requires Count(s, sep) == 0
    ensures Split(s, sep) == [s]
    decreases |s|
  {
    if s != [] {
      SplitNoSeparator(s[1..], sep);
      assert [s[0]] + s[1..] == s;
    }
  }

  /** A separator-free head before the first separator becomes the first part. */
  lemma {:induction false} SplitAtSeparator(a: string, sep: char, b: string)
    requires Count(a, sep) == 0
    ensures Split(a + [sep] + b, sep) == [a] + Split(b, sep)
    decreases |a|
  {
    if a == [] {
      assert a + [sep] + b == [sep] + b;
      assert ([sep] + b)[1..] == b;
    } else {
      var s := a + [sep] + b;
      assert s[0] == a[0] && s[1..] == a[1..] + [sep] + b;
      SplitAtSeparator(a[1..], sep, b);
      assert [a[0]] + a[1..] == a;
    }
  }

  /** "a,b" with no other comma splits into exactly [a, b]. */
  lemma SplitPair(a: string, sep: char, b: string)
    requires Count(a, sep) == 0 && Count(b, sep) == 0
    ensures Split(a + [sep] + b, sep) == [a, b]
  {
    SplitAtSeparator(a, sep, b);
    SplitNoSeparator(b, sep);
  }

  /** The last part of a split holds no separator and is a suffix of the string. */
  lemma {:induction false} SplitLastPart(s: string, sep: char)
    ensures var parts := Split(s, sep);
      Count(parts[|parts| - 1], sep) == 0 && EndsWith(s, parts[|parts| - 1])
    decreases |s|
  {
    if s != [] {
      var rest := Split(s[1..], sep);
      SplitLastPart(s[1..], sep);
      var last := rest[|rest| - 1];
      assert s[1..][|s[1..]| - |last|..] == last;
      if s[0] == sep || |rest| > 1 {
        assert Split(s, sep)[|Split(s, sep)| - 1] == last;
        assert s[|s| - |last|..] == s[1..][|s[1..]| - |last|..];
      } else {
        SplitNoSeparator(s[1..], sep);
        assert Split(s, sep) == [[s[0]] + s[1..]];
        assert [s[0]] + s[1..] == s;
      }
    }
  }
}
