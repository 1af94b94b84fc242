/**
  * Python's built-in string and list operations, as the agent code uses them:
  * slicing with negative bounds, `strip`, `lower`, `startswith`, `in`,
  * `find`/`rfind`, `replace`, `split`, `join`, `str(int)` and the length of a
  * UTF-8 encoding. Characters are Unicode scalar values, as in Python 3.
  */
module Text {

  function Min(a: int, b: int): int { if a <= b then a else b }
  function Max(a: int, b: int): int { if a >= b then a else b }

  // ---------------------------------------------------------------------
  // Slicing

  /** Python's `s[a:]`: a negative `a` counts from the end, bounds clamp. */
  function SliceFrom<T>(s: seq<T>, a: int): (r: seq<T>)
    ensures |r| == (if a >= 0 then Max(0, |s| - a) else Min(-a, |s|))
    ensures r == s[|s| - |r|..]
  {
    if a >= 0 then (if a <= |s| then s[a..] else [])
    else if |s| + a >= 0 then s[|s| + a..] else s
  }

  /** Python's `s[:b]`: a negative `b` counts from the end, bounds clamp. */
  function SliceTo<T>(s: seq<T>, b: int): (r: seq<T>)
    ensures |r| == (if b >= 0 then Min(b, |s|) else Max(0, |s| + b))
    ensures r == s[..|r|]
  {
    if b >= 0 then (if b <= |s| then s[..b] else s)
    else if |s| + b >= 0 then s[..|s| + b] else []
  }

  // ---------------------------------------------------------------------
  // Whitespace

  /** Python's `str.isspace` for one character. */
  predicate IsSpace(c: char)
  {
    c == ' ' || ('\t' <= c <= '\r') || ('\U{1C}' <= c <= '\U{1F}') || c == '\U{85}' || c == '\U{A0}'
    || c == '\U{1680}' || ('\U{2000}' <= c <= '\U{200A}') || c == '\U{2028}' || c == '\U{2029}'
    || c == '\U{202F}' || c == '\U{205F}' || c == '\U{3000}'
  }

  /** The number of whitespace characters `s` starts with. */
  function LeadingSpaces(s: string): (n: nat)
    ensures n <= |s|
    ensures forall i :: 0 <= i < n ==> IsSpace(s[i])
    ensures n == |s| || !IsSpace(s[n])
    decreases |s|
  {
    if s != [] && IsSpace(s[0]) then 1 + LeadingSpaces(s[1..]) else 0
  }

  /** Python's `s.lstrip()`: the suffix that starts at the first non-space. */
  function LStrip(s: string): string
  {
    s[LeadingSpaces(s)..]
  }

  /** Python's `s.strip()`: whitespace removed from both ends. */
  function Strip(s: string): string
    decreases |s|
  {
    if s != [] && IsSpace(s[0]) then Strip(s[1..])
    else if s != [] && IsSpace(s[|s| - 1]) then Strip(s[..|s| - 1])
    else s
  }

  /** What `Strip` keeps is the slice `s[a..b]`, with only whitespace outside it. */
  lemma {:induction false} StripSpan(s: string) returns (a: nat, b: nat)
    ensures a <= b <= |s| && Strip(s) == s[a..b]
    ensures forall i :: 0 <= i < a ==> IsSpace(s[i])
    ensures forall i :: b <= i < |s| ==> IsSpace(s[i])
    ensures a == b || (!IsSpace(s[a]) && !IsSpace(s[b - 1]))
    decreases |s|
  {
    if s != [] && IsSpace(s[0]) {
      var a1, b1 := StripSpan(s[1..]);
      a, b := a1 + 1, b1 + 1;
      assert s[1..][a1..b1] == s[a..b];
      forall i | 0 < i < a ensures IsSpace(s[i]) {
        assert s[i] == s[1..][i - 1];
      }
      forall i | b <= i < |s| ensures IsSpace(s[i]) {
        assert s[i] == s[1..][i - 1];
      }
    } else if s != [] && IsSpace(s[|s| - 1]) {
      var t := s[..|s| - 1];
      a, b := StripSpan(t);
      assert t[a..b] == s[a..b];
      if t != [] {
        assert t[0] == s[0];
      }
      forall i | b <= i < |s| - 1 ensures IsSpace(s[i]) {
        assert s[i] == t[i];
      }
    } else {
      a, b := 0, |s|;
    }
  }

  /** A stripped string has no whitespace at either end, and is empty exactly when `s` is blank. */
  lemma StripEnds(s: string)
    ensures |Strip(s)| <= |s|
    ensures Strip(s) == [] || (!IsSpace(Strip(s)[0]) && !IsSpace(Strip(s)[|Strip(s)| - 1]))
    ensures Strip(s) == [] <==> forall i :: 0 <= i < |s| ==> IsSpace(s[i])
  {
    var a, b := StripSpan(s);
    if a < b {
      assert Strip(s)[0] == s[a];
      assert Strip(s)[b - a - 1] == s[b - 1];
    } else {
      forall i | 0 <= i < |s| ensures IsSpace(s[i]) {
        if i >= a {
          assert i >= b;
        }
      }
    }
  }

  /** Stripping is idempotent. */
  lemma StripIdempotent(s: string)
    ensures Strip(Strip(s)) == Strip(s)
  {
    StripEnds(s);
  }

  /** Python's `s.lstrip(chars)`: drop every leading character that is in `cs`. */
  function LStripChars(s: string, cs: set<char>): (r: string)
    ensures |r| <= |s| && r == s[|s| - |r|..]
    ensures r == [] || r[0] !in cs
    decreases |s|
  {
    if s != [] && s[0] in cs then LStripChars(s[1..], cs) else s
  }

  // ---------------------------------------------------------------------
  // Case, prefixes, substrings

  /**
    * `str.lower` for one character: ASCII letters and the Cyrillic capitals
    * U+0400..U+042F; every other character is returned unchanged.
    */
  function LowerChar(c: char): char
  {
    if 'A' <= c <= 'Z' then (c as int + 32) as char
    else if '\U{410}' <= c <= '\U{42F}' then (c as int + 0x20) as char
    else if '\U{400}' <= c <= '\U{40F}' then (c as int + 0x50) as char
    else c
  }

  /** Python's `s.lower()`, character by character. */
  function Lower(s: string): (r: string)
    ensures |r| == |s|
    ensures forall i :: 0 <= i < |s| ==> r[i] == LowerChar(s[i])
  {
    seq(|s|, i requires 0 <= i < |s| => LowerChar(s[i]))
  }

  /** Python's `s.startswith(p)`. */
  predicate StartsWith(s: string, p: string)
  {
    |p| <= |s| && s[..|p|] == p
  }

  /** Python's `sub in s`. */
  predicate Contains(s: string, sub: string)
  {
    exists i | 0 <= i <= |s| - |sub| :: OccursAt(s, sub, i)
  }

  /** `sub` occurs in `s` starting at index `i`. */
  predicate OccursAt(s: string, sub: string, i: int)
  {
    0 <= i <= |s| - |sub| && s[i..i + |sub|] == sub
  }

  /** A substring of a substring is a substring. */
  lemma ContainsTransitive(s: string, mid: string, sub: string)
    requires Contains(s, mid) && Contains(mid, sub)
    ensures Contains(s, sub)
  {
    var i: int :| OccursAt(s, mid, i);
    assert OccursAt(s, mid, i);
    var j: int :| OccursAt(mid, sub, j);
    assert OccursAt(mid, sub, j);
    assert 0 <= i <= |s| - |mid| && s[i..i + |mid|] == mid;
    assert 0 <= j <= |mid| - |sub| && mid[j..j + |sub|] == sub;
    forall t | 0 <= t < |sub| ensures s[i + j + t] == sub[t] {
      assert sub[t] == mid[j + t] == s[i + j + t];
    }
    assert s[i + j..i + j + |sub|] == sub;
    assert OccursAt(s, sub, i + j);
  }

  /** Every occurrence inside a suffix is an occurrence in the whole string. */
  lemma ContainsSuffix(s: string, k: nat, sub: string)
    requires k <= |s| && Contains(s[k..], sub)
    ensures Contains(s, sub)
  {
    var i: int :| OccursAt(s[k..], sub, i);
    assert OccursAt(s[k..], sub, i);
    assert 0 <= i <= |s[k..]| - |sub| && s[k..][i..i + |sub|] == sub;
    assert s[k + i..k + i + |sub|] == s[k..][i..i + |sub|];
    assert OccursAt(s, sub, k + i);
  }

  /** Python's `s.find(c)`: the first index of `c`, or -1. */
  function FindChar(s: string, c: char): (r: int)
    ensures -1 <= r < |s|
    ensures r == -1 <==> c !in s
    ensures r >= 0 ==> s[r] == c && c !in s[..r]
    decreases |s|
  {
    if s == [] then -1
    else if s[0] == c then 0
    else
      var k := FindChar(s[1..], c);
      if k < 0 then -1 else k + 1
  }

  /** Python's `s.rfind(c)`: the last index of `c`, or -1. */
  function RFindChar(s: string, c: char): (r: int)
    ensures -1 <= r < |s|
    ensures r == -1 <==> c !in s
    ensures r >= 0 ==> s[r] == c && c !in s[r + 1..]
    decreases |s|
  {
    if s == [] then -1
    else if s[|s| - 1] == c then |s| - 1
    else
      var init := s[..|s| - 1];
      var k := RFindChar(init, c);
      assert s == init + [s[|s| - 1]];
      assert k >= 0 ==> s[k + 1..] == init[k + 1..] + [s[|s| - 1]];
      k
  }

  // ---------------------------------------------------------------------
  // Replacing, splitting, joining

  /** Python's `s.replace(a, b)` for one-character patterns. */
  function ReplaceChar(s: string, a: char, b: char): (r: string)
    ensures |r| == |s|
    ensures forall i :: 0 <= i < |s| ==> r[i] == (if s[i] == a then b else s[i])
  {
    seq(|s|, i requires 0 <= i < |s| => if s[i] == a then b else s[i])
  }

  /** Python's `s.replace(pat, repl)`: every non-overlapping occurrence, scanning left to right. */
  function Replace(s: string, pat: string, repl: string): string
    requires pat != []
    decreases |s|
  {
    if |s| < |pat| then s
    else if s[..|pat|] == pat then repl + Replace(s[|pat|..], pat, repl)
    else [s[0]] + Replace(s[1..], pat, repl)
  }

  /** Replacing a pattern that does not occur leaves the string as it was. */
  lemma {:induction false} ReplaceAbsent(s: string, pat: string, repl: string)
    requires pat != [] && !Contains(s, pat)
    ensures Replace(s, pat, repl) == s
    decreases |s|
  {
    if |s| >= |pat| {
      assert !OccursAt(s, pat, 0);
      assert !Contains(s[1..], pat) by {
        if Contains(s[1..], pat) {
          ContainsSuffix(s, 1, pat);
        }
      }
      ReplaceAbsent(s[1..], pat, repl);
    }
  }

  /** A string holding no character of `pat` cannot contain it. */
  lemma MissingCharNotContained(s: string, pat: string, c: char)
    requires c in pat && c !in s
    ensures !Contains(s, pat)
  {
  }

  /** A prefix without the pattern's first character is passed over unchanged. */
  lemma {:induction false} ReplaceKeepsPrefix(a: string, b: string, pat: string, repl: string)
    requires pat != [] && pat[0] !in a
    ensures Replace(a + b, pat, repl) == a + Replace(b, pat, repl)
    decreases |a|
  {
    if a != [] {
      var s := a + b;
      if |s| >= |pat| {
        assert s[..|pat|][0] == a[0] != pat[0];
        assert s[1..] == a[1..] + b;
        ReplaceKeepsPrefix(a[1..], b, pat, repl);
        assert Replace(s, pat, repl) == [a[0]] + (a[1..] + Replace(b, pat, repl));
        assert [a[0]] + a[1..] == a;
        assert Replace(s, pat, repl) == a + Replace(b, pat, repl);
      } else {
        assert Replace(b, pat, repl) == b;
        assert Replace(s, pat, repl) == s;
      }
    } else {
      assert a + b == b;
    }
  }

  /** Replacing never introduces a character found in neither the string nor the replacement. */
  lemma {:induction false} ReplaceKeepsOut(s: string, pat: string, repl: string, c: char)
    requires pat != [] && c !in s && c !in repl
    ensures c !in Replace(s, pat, repl)
    decreases |s|
  {
    if |s| >= |pat| {
      if s[..|pat|] == pat {
        assert c !in s[|pat|..];
        ReplaceKeepsOut(s[|pat|..], pat, repl, c);
      } else {
        assert c !in s[1..];
        ReplaceKeepsOut(s[1..], pat, repl, c);
      }
    }
  }

  /** Python's `s.split(sep)` with an explicit one-character separator. */
  function Split(s: string, sep: char): (parts: seq<string>)
    ensures |parts| >= 1
    ensures forall i :: 0 <= i < |parts| ==> sep !in parts[i]
    decreases |s|
  {
    var k := FindChar(s, sep);
    if k < 0 then [s]
    else
      var rest := Split(s[k + 1..], sep);
      assert forall i :: 1 <= i <= |rest| ==> ([s[..k]] + rest)[i] == rest[i - 1];
      [s[..k]] + rest
  }

  /** Python's `sep.join(parts)`. */
  function Join(sep: string, parts: seq<string>): string
    decreases |parts|
  {
    if parts == [] then ""
    else if |parts| == 1 then parts[0]
    else parts[0] + sep + Join(sep, parts[1..])
  }

  lemma JoinCons(sep: string, a: string, rest: seq<string>)
    requires rest != []
    ensures Join(sep, [a] + rest) == a + sep + Join(sep, rest)
  {
    assert ([a] + rest)[1..] == rest;
  }

  /** Joining two non-empty lists of parts: the joins of each, with one separator between. */
  lemma {:induction false} JoinConcat(sep: string, a: seq<string>, b: seq<string>)
    requires a != [] && b != []
    ensures Join(sep, a + b) == Join(sep, a) + sep + Join(sep, b)
    decreases |a|
  {
    if |a| == 1 {
      JoinCons(sep, a[0], b);
      assert [a[0]] + b == a + b;
    } else {
      JoinConcat(sep, a[1..], b);
      assert (a + b)[1..] == a[1..] + b;
      JoinCons(sep, a[0], a[1..] + b);
      JoinCons(sep, a[0], a[1..]);
      assert [a[0]] + (a[1..] + b) == a + b;
      assert [a[0]] + a[1..] == a;
    }
  }

  /** A join whose last part is non-empty is non-empty. */
  lemma {:induction false} JoinLastNonEmpty(sep: string, parts: seq<string>)
    requires parts != [] && parts[|parts| - 1] != ""
    ensures Join(sep, parts) != ""
    decreases |parts|
  {
    if |parts| > 1 {
      JoinLastNonEmpty(sep, parts[1..]);
    }
  }

  /** Every part behind one space. */
  function Indented(parts: seq<string>): (r: seq<string>)
    ensures |r| == |parts|
    ensures forall k :: 0 <= k < |parts| ==> r[k] == " " + parts[k]
  {
    seq(|parts|, k requires 0 <= k < |parts| => " " + parts[k])
  }

  /** A `"; "`-join behind a space is the `;`-join of the parts each behind a space. */
  lemma {:induction false} JoinSemicolonSpace(parts: seq<string>)
    requires parts != []
    ensures " " + Join("; ", parts) == Join(";", Indented(parts))
    decreases |parts|
  {
    if |parts| > 1 {
      JoinSemicolonSpace(parts[1..]);
      assert Indented(parts) == [" " + parts[0]] + Indented(parts[1..]);
      JoinCons(";", " " + parts[0], Indented(parts[1..]));
    }
  }

  lemma SemicolonSpace(a: string, b: string)
    ensures a + "; " + b == a + ";" + (" " + b)
  {
    assert "; " == ";" + " ";
  }

  /** `"; ".join(parts)` is the `;`-join of the first part and the others each behind a space. */
  lemma JoinSemicolon(parts: seq<string>)
    requires |parts| > 1
    ensures Join("; ", parts) == Join(";", [parts[0]] + Indented(parts[1..]))
  {
    var rest := parts[1..];
    calc {
      Join("; ", parts);
      parts[0] + "; " + Join("; ", rest);
      { SemicolonSpace(parts[0], Join("; ", rest)); }
      parts[0] + ";" + (" " + Join("; ", rest));
      { JoinSemicolonSpace(rest); }
      parts[0] + ";" + Join(";", Indented(rest));
      { JoinCons(";", parts[0], Indented(rest)); }
      Join(";", [parts[0]] + Indented(rest));
    }
  }

  lemma PrefixStep<T>(s: seq<T>, i: nat, x: T)
    requires i < |s| && s[i] == x
    ensures s[..i + 1] == s[..i] + [x]
  {
  }

  lemma Decompose<T>(s: seq<T>, k: nat)
    requires k < |s|
    ensures s == s[..k] + [s[k]] + s[k + 1..]
  {}

  /** Joining the pieces of a split restores the string. */
  lemma {:induction false} JoinSplit(s: string, sep: char)
    ensures Join([sep], Split(s, sep)) == s
    decreases |s|
  {
    var k := FindChar(s, sep);
    if k >= 0 {
      var rest := Split(s[k + 1..], sep);
      assert Split(s, sep) == [s[..k]] + rest;
      JoinCons([sep], s[..k], rest);
      JoinSplit(s[k + 1..], sep);
      assert Join([sep], rest) == s[k + 1..];
      Decompose(s, k);
    }
  }

  /** Splitting a join of separator-free pieces gives the pieces back. */
  lemma {:induction false} SplitJoin(parts: seq<string>, sep: char)
    requires |parts| >= 1
    requires forall i :: 0 <= i < |parts| ==> sep !in parts[i]
    ensures Split(Join([sep], parts), sep) == parts
    decreases |parts|
  {
    var s := Join([sep], parts);
    if |parts| > 1 {
      var head := parts[0];
      var tail := Join([sep], parts[1..]);
      assert parts == [head] + parts[1..];
      JoinCons([sep], head, parts[1..]);
      assert s == head + [sep] + tail;
      assert s[..|head|] == head;
      assert s[|head| + 1..] == tail;
      FindCharAt(s, |head|, sep);
      assert Split(s, sep) == [head] + Split(tail, sep);
      SplitJoin(parts[1..], sep);
    }
  }

  /** The first occurrence of `c` is the one with no `c` before it. */
  lemma {:induction false} FindCharAt(s: string, k: nat, c: char)
    requires k < |s| && s[k] == c && c !in s[..k]
    ensures FindChar(s, c) == k
    decreases k
  {
    if k > 0 {
      assert s[0] in s[..k];
      assert s[1..][..k - 1] == s[..k][1..];
      FindCharAt(s[1..], k - 1, c);
    }
  }

  // ---------------------------------------------------------------------
  // Numbers and encodings

  function DigitChar(d: nat): char
    requires d < 10
  {
    ('0' as int + d) as char
  }

  /** Python's `str(n)` for a non-negative integer. */
  function NatToString(n: nat): (r: string)
    decreases n
  {
    if n < 10 then [DigitChar(n)] else NatToString(n / 10) + [DigitChar(n % 10)]
  }

  /** Python's `str(i)`. */
  function IntToString(i: int): string
  {
    if i < 0 then "-" + NatToString(-i) else NatToString(i)
  }

  /** The number of bytes of one character in UTF-8. */
  function Utf8Width(c: char): nat
  {
    if c as int < 0x80 then 1 else if c as int < 0x800 then 2 else if c as int < 0x10000 then 3 else 4
  }

  /** `len(s.encode('utf-8'))`. */
  function Utf8Length(s: string): (n: nat)
    ensures |s| <= n <= 4 * |s|
    decreases |s|
  {
    if s == [] then 0 else Utf8Width(s[0]) + Utf8Length(s[1..])
  }
}
