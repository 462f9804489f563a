/**
 The small part of Python's `str` (and the builtins `str(int)` and `max`) that the
 backend relies on, written over `seq<char>`: `replace`, `split` on one character,
 `strip`, `lower` (ASCII letters only), substring membership `in`, `startswith`,
 decimal rendering of a natural number, and the maximum of a non-empty list.
 */
module PyStrings {

  /** Python's `sub in s`: some slice of `s` equals `sub` (true for the empty `sub`). */
  predicate Contains(s: string, sub: string)
    decreases |s|
  {
    if |s| < |sub| then false
    else if s[..|sub|] == sub then true
    else Contains(s[1..], sub)
  }

  /** `s.startswith(prefix)` */
  predicate StartsWith(s: string, prefix: string) {
    prefix <= s
  }

  /** `s.endswith(suffix)` */
  predicate EndsWith(s: string, suffix: string) {
    |suffix| <= |s| && s[|s| - |suffix|..] == suffix
  }

  /** Python's `s.replace(pat, repl)` for a non-empty `pat`: the occurrences of `pat` are found
      left to right and do not overlap; each is replaced by `repl`. */
  function Replace(s: string, pat: string, repl: string): string
    requires |pat| > 0
    decreases |s|
  {
    if |s| < |pat| then s
    else if s[..|pat|] == pat then repl + Replace(s[|pat|..], pat, repl)
    else [s[0]] + Replace(s[1..], pat, repl)
  }

  /** `s.replace(pat, "")` for any `pat`; Python leaves `s` as it is when `pat` is empty. */
  function RemoveAll(s: string, pat: string): string {
    if pat == "" then s else Replace(s, pat, "")
  }

  /** Number of occurrences of the character `c` in `s`. */
  function CountChar(s: string, c: char): nat {
    if s == [] then 0 else (if s[0] == c then 1 else 0) + CountChar(s[1..], c)
  }

  /** `sep.join(parts)` for a one-character separator. */
  function Join(parts: seq<string>, sep: char): string
    requires |parts| > 0
  {
    if |parts| == 1 then parts[0] else parts[0] + [sep] + Join(parts[1..], sep)
  }

  /** Python's `s.split(sep)` for a one-character separator: one more part than there are
      separators, empty parts kept, and joining the parts back gives `s`. */
  function Split(s: string, sep: char): (parts: seq<string>)
    ensures |parts| == CountChar(s, sep) + 1
    ensures forall i :: 0 <= i < |parts| ==> sep !in parts[i]
    ensures Join(parts, sep) == s
    decreases |s|
  {
    if s == [] then [""]
    else
      var rest := Split(s[1..], sep);
      if s[0] == sep then [""] + rest
      else [[s[0]] + rest[0]] + rest[1..]
  }

  /** The characters Python's `str.isspace()` accepts, which is what `strip()` removes. */
  predicate IsSpace(c: char) {
    '\t' <= c <= '\r' || '\U{1C}' <= c <= ' ' || c == '\U{85}' || c == '\U{A0}'
    || c == '\U{1680}' || '\U{2000}' <= c <= '\U{200A}' || c == '\U{2028}' || c == '\U{2029}'
    || c == '\U{202F}' || c == '\U{205F}' || c == '\U{3000}'
  }

  /** How many whitespace characters open `s`. */
  function LeadingSpaces(s: string): (n: nat)
    ensures n <= |s|
    ensures forall k :: 0 <= k < n ==> IsSpace(s[k])
    ensures n < |s| ==> !IsSpace(s[n])
  {
    if s != [] && IsSpace(s[0]) then 1 + LeadingSpaces(s[1..]) else 0
  }

  /** The length of `s` once its trailing whitespace is dropped. */
  function TrimmedEnd(s: string): (m: nat)
    ensures m <= |s|
    ensures forall k :: m <= k < |s| ==> IsSpace(s[k])
    ensures m > 0 ==> !IsSpace(s[m - 1])
  {
    if s != [] && IsSpace(s[|s| - 1]) then TrimmedEnd(s[..|s| - 1]) else |s|
  }

  /** `s[i..j]` is what `strip()` keeps of `s`: everything before `i` and from `j` on is
      whitespace. */
  predicate StripBounds(s: string, i: int, j: int) {
    && 0 <= i <= j <= |s|
    && (forall k :: 0 <= k < i ==> IsSpace(s[k]))
    && (forall k :: j <= k < |s| ==> IsSpace(s[k]))
  }

  /** Python's `s.strip()`: the slice left after dropping the leading and the trailing
      whitespace, and only that. */
  function Strip(s: string): (r: string)
    ensures exists i, j :: StripBounds(s, i, j) && r == s[i..j]
    ensures r != [] ==> !IsSpace(r[0]) && !IsSpace(r[|r| - 1])
    ensures (s == [] || (!IsSpace(s[0]) && !IsSpace(s[|s| - 1]))) ==> r == s
  {
    var i := LeadingSpaces(s);
    var j := if i == |s| then i else TrimmedEnd(s);
    assert StripBounds(s, i, j);
    assert s[0..|s|] == s;
    s[i..j]
  }

  /** `strip` only drops characters, so it cannot introduce one. */
  lemma StripKeepsOut(s: string, c: char)
    requires c !in s
    ensures c !in Strip(s)
  {
    var r := Strip(s);
    assert exists i, j :: StripBounds(s, i, j) && r == s[i..j];
    var i, j :| StripBounds(s, i, j) && r == s[i..j];
  }

  /** Python's `c.lower()` for ASCII letters; every other character is kept. */
  function LowerChar(c: char): char {
    if 'A' <= c <= 'Z' then (c as int + 32) as char else c
  }

  /** `s.lower()` restricted to ASCII case mapping. */
  function Lower(s: string): (r: string)
    ensures |r| == |s|
    ensures forall i :: 0 <= i < |s| ==> r[i] == LowerChar(s[i])
  {
    if s == [] then [] else [LowerChar(s[0])] + Lower(s[1..])
  }

  function DigitChar(d: nat): char
    requires d < 10
  {
    ('0' as int + d) as char
  }

  predicate IsDigit(c: char) {
    '0' <= c <= '9'
  }

  function DigitValue(c: char): nat
    requires IsDigit(c)
  {
    c as int - '0' as int
  }

  /** The value of a string of decimal digits. */
  function DecimalValue(s: string): nat
    requires forall i :: 0 <= i < |s| ==> IsDigit(s[i])
  {
    if s == [] then 0 else 10 * DecimalValue(s[..|s| - 1]) + DigitValue(s[|s| - 1])
  }

  /** Python's `str(n)` for a natural number: decimal digits without leading zeros. */
  function NatToString(n: nat): (r: string)
    ensures |r| > 0
    ensures forall i :: 0 <= i < |r| ==> IsDigit(r[i])
    ensures r[0] == '0' ==> n == 0 && r == "0"
    ensures DecimalValue(r) == n
  {
    if n < 10 then [DigitChar(n)]
    else
      var r := NatToString(n / 10) + [DigitChar(n % 10)];
      assert r[..|r| - 1] == NatToString(n / 10);
      r
  }

  /** Python's `max(xs)` over a non-empty list (an empty one raises, which callers handle). */
  function Max(xs: seq<real>): (m: real)
    requires |xs| > 0
    ensures m in xs
    ensures forall i :: 0 <= i < |xs| ==> xs[i] <= m
  {
    if |xs| == 1 then xs[0]
    else
      var rest := Max(xs[1..]);
      if xs[0] >= rest then xs[0] else rest
  }

  // ---------------------------------------------------------------------------
  // Facts about `in`, `replace` and `split` used to reason about class labels.
  // ---------------------------------------------------------------------------

  /** Every character of a contained string occurs in the containing one. */
  lemma {:induction false} ContainsChars(s: string, sub: string, k: nat)
    requires Contains(s, sub) && k < |sub|
    ensures sub[k] in s
    decreases |s|
  {
    if s[..|sub|] == sub {
      assert s[k] == sub[k];
    } else {
      ContainsChars(s[1..], sub, k);
    }
  }

  /** A string contains every prefix of a string it contains (`"___" in s` implies `"__" in s`). */
  lemma {:induction false} ContainsPrefixOfPattern(s: string, sub: string, pre: string)
    requires Contains(s, sub) && pre <= sub
    ensures Contains(s, pre)
    decreases |s|
  {
    if s[..|sub|] == sub {
      assert s[..|pre|] == pre;
    } else {
      ContainsPrefixOfPattern(s[1..], sub, pre);
    }
  }

  /** No occurrence of a pattern can start inside a prefix that lacks the pattern's first
      character. */
  lemma {:induction false} ContainsSkipPrefix(x: string, y: string, sub: string)
    requires |sub| > 0 && sub[0] !in x
    ensures Contains(x + y, sub) <==> Contains(y, sub)
    decreases |x|
  {
    if x != [] {
      var s := x + y;
      assert s[0] == x[0] && s[1..] == x[1..] + y;
      ContainsSkipPrefix(x[1..], y, sub);
      if |s| < |sub| {
        assert !Contains(s, sub);
        assert !Contains(y, sub);
      } else {
        assert x[0] in x;
        assert s[..|sub|] != sub by { assert s[..|sub|][0] == x[0]; }
        assert Contains(s, sub) == Contains(s[1..], sub);
      }
    } else {
      assert x + y == y;
    }
  }

  /** `replace` leaves a prefix untouched when no occurrence can start inside it. */
  lemma {:induction false} ReplaceSkipPrefix(x: string, y: string, pat: string, repl: string)
    requires |pat| > 0 && pat[0] !in x
    ensures Replace(x + y, pat, repl) == x + Replace(y, pat, repl)
    decreases |x|
  {
    if x != [] {
      var s := x + y;
      assert s[0] == x[0] && s[1..] == x[1..] + y;
      if |s| < |pat| {
        assert Replace(y, pat, repl) == y;
      } else {
        assert s[..|pat|] != pat by { assert s[..|pat|][0] == x[0]; }
        ReplaceSkipPrefix(x[1..], y, pat, repl);
        assert [x[0]] + (x[1..] + Replace(y, pat, repl)) == x + Replace(y, pat, repl);
      }
    } else {
      assert x + y == y;
    }
  }

  /** When no occurrence starts at the first character, the scan keeps it and moves on. */
  lemma ReplaceStepOver(c: char, x: string, pat: string, repl: string)
    requires |pat| > 0
    requires |[c] + x| < |pat| || ([c] + x)[..|pat|] != pat
    ensures Replace([c] + x, pat, repl) == [c] + Replace(x, pat, repl)
  {
    assert ([c] + x)[1..] == x;
    if |[c] + x| < |pat| {
      assert Replace(x, pat, repl) == x;
    }
  }

  /** An occurrence at the front is replaced and the scan resumes after it. */
  lemma ReplaceAtFront(y: string, pat: string, repl: string)
    requires |pat| > 0
    ensures Replace(pat + y, pat, repl) == repl + Replace(y, pat, repl)
  {
    assert (pat + y)[..|pat|] == pat;
    assert (pat + y)[|pat|..] == y;
  }

  /** Without an occurrence, `replace` returns its input. */
  lemma {:induction false} ReplaceAbsent(s: string, pat: string, repl: string)
    requires |pat| > 0 && !Contains(s, pat)
    ensures Replace(s, pat, repl) == s
    decreases |s|
  {
    if |s| >= |pat| {
      ReplaceAbsent(s[1..], pat, repl);
      assert [s[0]] + s[1..] == s;
    }
  }

  /** A character outside the pattern is in the result of `replace` exactly when it was in the
      input, or it is in the replacement and at least one occurrence was replaced. */
  lemma {:induction false} ReplaceKeepsChar(s: string, pat: string, repl: string, c: char)
    requires |pat| > 0 && c !in pat
    ensures c in Replace(s, pat, repl) <==> c in s || (c in repl && Contains(s, pat))
    decreases |s|
  {
    if |s| < |pat| {
    } else if s[..|pat|] == pat {
      ReplaceKeepsChar(s[|pat|..], pat, repl, c);
      assert s == pat + s[|pat|..];
    } else {
      ReplaceKeepsChar(s[1..], pat, repl, c);
      assert s == [s[0]] + s[1..];
    }
  }

  /** Replacing every occurrence of one character by a string without it removes that character. */
  lemma {:induction false} ReplaceRemovesChar(s: string, c: char, repl: string)
    requires c !in repl
    ensures c !in Replace(s, [c], repl)
    decreases |s|
  {
    if |s| >= 1 {
      ReplaceRemovesChar(s[1..], c, repl);
      if s[..1] != [c] {
        assert s[0] != c;
      }
    }
  }

  /** Replacing a character by a character is a position-by-position substitution. */
  lemma {:induction false} ReplaceCharByChar(s: string, c: char, d: char)
    ensures |Replace(s, [c], [d])| == |s|
    ensures forall i :: 0 <= i < |s| ==> Replace(s, [c], [d])[i] == if s[i] == c then d else s[i]
    decreases |s|
  {
    if |s| >= 1 {
      ReplaceCharByChar(s[1..], c, d);
      if s[..1] == [c] {
        assert s[0] == c;
        assert s[1..] == s[|[c]|..];
      }
    }
  }

  /** `split` undoes `join` when no part holds the separator. */
  lemma {:induction false} SplitJoin(parts: seq<string>, sep: char)
    requires |parts| > 0
    requires forall i :: 0 <= i < |parts| ==> sep !in parts[i]
    ensures Split(Join(parts, sep), sep) == parts
    decreases |parts|
  {
    var first := parts[0];
    assert sep !in first;
    if |parts| == 1 {
      SplitSkipPrefix(first, "", sep);
      assert first + "" == first;
    } else {
      var tail := parts[1..];
      var rest := Join(tail, sep);
      assert Split([sep] + rest, sep) == [""] + tail by {
        SplitJoin(tail, sep);
        SplitAfterSeparator(rest, sep);
      }
      assert Join(parts, sep) == first + ([sep] + rest) by {
        assert first + [sep] + rest == first + ([sep] + rest);
      }
      assert Split(first + ([sep] + rest), sep) == [first] + tail by {
        SplitSkipPrefix(first, [sep] + rest, sep);
        assert first + "" == first;
      }
      assert parts == [first] + tail;
    }
  }

  lemma SplitAfterSeparator(rest: string, sep: char)
    ensures Split([sep] + rest, sep) == [""] + Split(rest, sep)
  {
    assert ([sep] + rest)[1..] == rest;
  }

  /** A prefix without the separator becomes the front of the first part. */
  lemma {:induction false} SplitSkipPrefix(x: string, y: string, sep: char)
    requires sep !in x
    ensures Split(x + y, sep) == [x + Split(y, sep)[0]] + Split(y, sep)[1..]
    decreases |x|
  {
    if x != [] {
      var parts := Split(y, sep);
      var rest := Split(x[1..] + y, sep);
      assert Split(x + y, sep) == [[x[0]] + rest[0]] + rest[1..] by {
        assert (x + y)[0] == x[0] && (x + y)[1..] == x[1..] + y;
      }
      assert rest == [x[1..] + parts[0]] + parts[1..] by {
        SplitSkipPrefix(x[1..], y, sep);
      }
      assert [x[0]] + (x[1..] + parts[0]) == x + parts[0];
    } else {
      var parts := Split(y, sep);
      assert x + y == y && x + parts[0] == parts[0];
      assert parts == [parts[0]] + parts[1..];
    }
  }

  /** Every character of a part occurs in the joined string. */
  lemma {:induction false} JoinHasPartChars(parts: seq<string>, sep: char, i: nat, c: char)
    requires |parts| > 0 && i < |parts| && c in parts[i]
    ensures c in Join(parts, sep)
    decreases |parts|
  {
    if i > 0 {
      JoinHasPartChars(parts[1..], sep, i - 1, c);
    }
  }

  /** The parts of `split` only hold characters of the split string. */
  lemma SplitPartChars(s: string, sep: char, i: nat, c: char)
    requires i < |Split(s, sep)| && c in Split(s, sep)[i]
    ensures c in s
  {
    JoinHasPartChars(Split(s, sep), sep, i, c);
  }

  /** A string has more than one part under `split` exactly when the separator occurs in it. */
  lemma {:induction false} SplitHasSeveralParts(s: string, sep: char)
    ensures |Split(s, sep)| >= 2 <==> sep in s
    decreases |s|
  {
    if s != [] {
      SplitHasSeveralParts(s[1..], sep);
      assert s == [s[0]] + s[1..];
    }
  }

  /** A string made of two runs without `c`, joined by one `c`, never holds `c` twice in a row. */
  lemma NoDoubledChar(x: string, y: string, c: char)
    requires c !in x && c !in y
    ensures !Contains(x + [c] + y, [c, c])
  {
    ContainsSkipPrefix(x, [c] + y, [c, c]);
    assert x + [c] + y == x + ([c] + y);
    var w := [c] + y;
    if |w| >= 2 {
      assert w[..2] != [c, c] by { assert w[1] == y[0]; }
      assert w[1..] == y;
      if Contains(y, [c, c]) {
        ContainsChars(y, [c, c], 0);
      }
    }
  }
}
