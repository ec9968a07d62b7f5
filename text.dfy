/**
 * The handful of Python `str` operations the application relies on:
 * `startswith`/`endswith`, the `in` substring test, `replace`, `lower`,
 * `capitalize`, `strip`, `join`, `split`, and the decimal and `02x`
 * renderings of integers.
 */
module Text {

  // ---------------------------------------------------------------------
  // Prefixes, suffixes and substrings
  // ---------------------------------------------------------------------

  /** Python `s.startswith(p)`. */
  predicate StartsWith(s: string, p: string)
  {
    |p| <= |s| && s[..|p|] == p
  }

  /** Python `s.endswith(p)`. */
  predicate EndsWith(s: string, p: string)
  {
    |p| <= |s| && s[|s| - |p|..] == p
  }

  /** Python `p in s` for strings: `p` occurs somewhere in `s`. */
  predicate Contains(s: string, p: string)
    decreases |s|
  {
    StartsWith(s, p) || (|s| > 0 && Contains(s[1..], p))
  }

  /** Concatenation regroups; stated once so that long literals need not be unfolded. */
  lemma ConcatAssoc(a: string, b: string, c: string)
    ensures (a + b) + c == a + (b + c)
  {
  }

  /** Python `c in s` for a single character. */
  predicate HasChar(s: string, c: char)
  {
    exists i :: 0 <= i < |s| && s[i] == c
  }

  /** Whatever surrounds `x`, `x` is contained in the whole. */
  lemma {:induction false} ContainsInfix(a: string, x: string, b: string)
    ensures Contains(a + x + b, x)
    decreases |a|
  {
    if a == [] {
      assert (a + x + b)[..|x|] == x;
    } else {
      ContainsInfix(a[1..], x, b);
      assert (a + x + b)[1..] == a[1..] + x + b;
    }
  }

  lemma ContainsSelf(x: string)
    ensures Contains(x, x)
  {
  }

  /** Text found in the left part is found in the whole. */
  lemma {:induction false} ContainsInLeft(a: string, b: string, x: string)
    requires Contains(a, x)
    ensures Contains(a + b, x)
    decreases |a|
  {
    if StartsWith(a, x) {
      assert (a + b)[..|x|] == a[..|x|];
    } else {
      ContainsInLeft(a[1..], b, x);
      assert (a + b)[1..] == a[1..] + b;
    }
  }

  /** Text found in the right part is found in the whole. */
  lemma {:induction false} ContainsInRight(a: string, b: string, x: string)
    requires Contains(b, x)
    ensures Contains(a + b, x)
    decreases |a|
  {
    if a == [] {
      assert a + b == b;
    } else {
      ContainsInRight(a[1..], b, x);
      assert (a + b)[1..] == a[1..] + b;
    }
  }

  /** A pattern longer than zero that contains a character not in `s` is not in `s`. */
  lemma {:induction false} NotContainsForeignChar(s: string, p: string, c: char)
    requires HasChar(p, c) && !HasChar(s, c)
    ensures !Contains(s, p)
    decreases |s|
  {
    if |s| > 0 {
      NotContainsForeignChar(s[1..], p, c);
    }
  }

  // ---------------------------------------------------------------------
  // replace
  // ---------------------------------------------------------------------

  /**
   * Python `s.replace(pat, rep)`: every occurrence of `pat`, scanning left
   * to right without overlaps, is replaced by `rep`. The application only
   * replaces non-empty patterns.
   */
  function ReplaceAll(s: string, pat: string, rep: string): string
    requires pat != ""
    decreases |s|
  {
    if s == "" then ""
    else if StartsWith(s, pat) then rep + ReplaceAll(s[|pat|..], pat, rep)
    else [s[0]] + ReplaceAll(s[1..], pat, rep)
  }

  /** Replacing a pattern that does not occur changes nothing. */
  lemma {:induction false} ReplaceAbsent(s: string, pat: string, rep: string)
    requires pat != "" && !Contains(s, pat)
    ensures ReplaceAll(s, pat, rep) == s
    decreases |s|
  {
    if s != "" {
      ReplaceAbsent(s[1..], pat, rep);
    }
  }

  /** Replacing a leading occurrence is the same as replacing in the rest. */
  lemma ReplaceLeading(pat: string, rep: string, s: string)
    requires pat != ""
    ensures ReplaceAll(pat + s, pat, rep) == rep + ReplaceAll(s, pat, rep)
  {
    assert (pat + s)[..|pat|] == pat;
    assert (pat + s)[|pat|..] == s;
  }

  /**
   * Replacing one character by a different one leaves no occurrence of
   * the first character, and keeps the length.
   */
  lemma {:induction false} ReplaceCharRemovesIt(s: string, c: char, d: char)
    requires c != d
    ensures |ReplaceAll(s, [c], [d])| == |s|
    ensures !HasChar(ReplaceAll(s, [c], [d]), c)
    decreases |s|
  {
    if s != "" {
      ReplaceCharRemovesIt(s[1..], c, d);
      var rest := ReplaceAll(s[1..], [c], [d]);
      var r := ReplaceAll(s, [c], [d]);
      assert r == (if s[0] == c then [d] else [s[0]]) + rest;
      assert forall i :: 1 <= i < |r| ==> r[i] == rest[i - 1];
    }
  }

  /** Replacing one character by another maps each character on its own. */
  lemma {:induction false} ReplaceCharAt(s: string, c: char, d: char)
    ensures |ReplaceAll(s, [c], [d])| == |s|
    ensures forall i :: 0 <= i < |s| ==> ReplaceAll(s, [c], [d])[i] == if s[i] == c then d else s[i]
    decreases |s|
  {
    if s != "" {
      ReplaceCharAt(s[1..], c, d);
      var rest := ReplaceAll(s[1..], [c], [d]);
      var r := ReplaceAll(s, [c], [d]);
      assert StartsWith(s, [c]) <==> s[0] == c;
      assert r == (if s[0] == c then [d] else [s[0]]) + rest;
      forall i | 1 <= i < |s|
        ensures r[i] == if s[i] == c then d else s[i]
      {
        assert r[i] == rest[i - 1];
        assert s[1..][i - 1] == s[i];
      }
    }
  }

  // ---------------------------------------------------------------------
  // Case mapping (ASCII letters; other characters are left as they are)
  // ---------------------------------------------------------------------

  function LowerChar(c: char): char
  {
    if 'A' <= c <= 'Z' then (c as int - 'A' as int + 'a' as int) as char else c
  }

  function UpperChar(c: char): char
  {
    if 'a' <= c <= 'z' then (c as int - 'a' as int + 'A' as int) as char else c
  }

  /** Python `s.lower()`. */
  function Lower(s: string): (r: string)
    ensures |r| == |s| && forall i :: 0 <= i < |s| ==> r[i] == LowerChar(s[i])
  {
    seq(|s|, i requires 0 <= i < |s| => LowerChar(s[i]))
  }

  /** Python `s.capitalize()`: first character upper case, the rest lower case. */
  function Capitalize(s: string): (r: string)
    ensures |r| == |s|
    ensures s != "" ==> r[0] == UpperChar(s[0]) && r[1..] == Lower(s[1..])
  {
    if s == "" then "" else [UpperChar(s[0])] + Lower(s[1..])
  }

  /** Lower-casing only sends a space to a space. */
  lemma LowerKeepsSpacesApart(s: string)
    ensures HasChar(Lower(s), ' ') <==> HasChar(s, ' ')
  {
    if HasChar(Lower(s), ' ') {
      var i :| 0 <= i < |s| && Lower(s)[i] == ' ';
      assert s[i] == ' ';
    }
    if HasChar(s, ' ') {
      var i :| 0 <= i < |s| && s[i] == ' ';
      assert Lower(s)[i] == ' ';
    }
  }

  // ---------------------------------------------------------------------
  // strip
  // ---------------------------------------------------------------------

  /** The characters Python's `str.isspace` accepts. */
  predicate IsSpace(c: char)
  {
    || c == ' ' || c == '\t' || c == '\n' || c == '\r'
    || c == '\U{0b}' || c == '\U{0c}'
    || ('\U{1c}' <= c <= '\U{1f}')
    || c == '\U{85}' || c == '\U{a0}' || c == '\U{1680}'
    || ('\U{2000}' <= c <= '\U{200a}')
    || c == '\U{2028}' || c == '\U{2029}' || c == '\U{202f}' || c == '\U{205f}' || c == '\U{3000}'
  }

  /** Python `s.lstrip()`: drop leading whitespace. */
  function LStrip(s: string): (r: string)
    ensures |r| <= |s| && r == s[|s| - |r|..]
    ensures forall i :: 0 <= i < |s| - |r| ==> IsSpace(s[i])
    ensures r != "" ==> !IsSpace(r[0])
    decreases |s|
  {
    if s != "" && IsSpace(s[0]) then LStrip(s[1..]) else s
  }

  /** Python `s.rstrip()`: drop trailing whitespace. */
  function RStrip(s: string): (r: string)
    ensures |r| <= |s| && r == s[..|r|]
    ensures forall i :: |r| <= i < |s| ==> IsSpace(s[i])
    ensures r != "" ==> !IsSpace(r[|r| - 1])
    decreases |s|
  {
    if s != "" && IsSpace(s[|s| - 1]) then RStrip(s[..|s| - 1]) else s
  }

  /**
   * Python `s.strip()`: the result is a contiguous piece of `s` that
   * neither starts nor ends with whitespace.
   */
  function Strip(s: string): (r: string)
    ensures var i := |s| - |LStrip(s)|; i + |r| <= |s| && r == s[i..i + |r|]
    ensures r != "" ==> !IsSpace(r[0]) && !IsSpace(r[|r| - 1])
  {
    RStrip(LStrip(s))
  }

  /** Everything `strip` cuts away, on either side, is whitespace. */
  lemma StripCutsOnlySpace(s: string)
    ensures var i := |s| - |LStrip(s)|;
      && (forall j :: 0 <= j < i ==> IsSpace(s[j]))
      && (forall j :: i + |Strip(s)| <= j < |s| ==> IsSpace(s[j]))
  {
    var l := LStrip(s);
    var i := |s| - |l|;
    var r := RStrip(l);
    assert l == s[i..];
    forall j | i + |r| <= j < |s|
      ensures IsSpace(s[j])
    {
      var c := l[j - i];
      assert IsSpace(c);
      assert s[j] == c;
    }
  }

  /** Stripping a string that neither starts nor ends with whitespace changes nothing. */
  lemma StripTrimmed(s: string)
    requires s != "" ==> !IsSpace(s[0]) && !IsSpace(s[|s| - 1])
    ensures Strip(s) == s
  {
  }

  /** Stripping twice is stripping once. */
  lemma StripIdempotent(s: string)
    ensures Strip(Strip(s)) == Strip(s)
  {
    StripTrimmed(Strip(s));
  }

  /**
   * Whitespace added around a trimmed string is exactly what `strip`
   * takes away again.
   */
  lemma {:induction false} StripPadded(pre: string, s: string, post: string)
    requires forall i :: 0 <= i < |pre| ==> IsSpace(pre[i])
    requires forall i :: 0 <= i < |post| ==> IsSpace(post[i])
    requires s != "" && !IsSpace(s[0]) && !IsSpace(s[|s| - 1])
    ensures Strip(pre + s + post) == s
  {
    LStripPrefix(pre, s + post);
    assert pre + s + post == pre + (s + post);
    RStripSuffix(s, post);
  }

  lemma {:induction false} LStripPrefix(pre: string, s: string)
    requires forall i :: 0 <= i < |pre| ==> IsSpace(pre[i])
    requires s != "" && !IsSpace(s[0])
    ensures LStrip(pre + s) == s
    decreases |pre|
  {
    if pre != "" {
      var t := pre + s;
      assert t[0] == pre[0] && IsSpace(t[0]);
      assert t[1..] == pre[1..] + s;
      LStripPrefix(pre[1..], s);
      assert LStrip(t) == LStrip(t[1..]);
    } else {
      assert pre + s == s;
    }
  }

  lemma {:induction false} RStripSuffix(s: string, post: string)
    requires forall i :: 0 <= i < |post| ==> IsSpace(post[i])
    requires s != "" && !IsSpace(s[|s| - 1])
    ensures RStrip(s + post) == s
    decreases |post|
  {
    if post != "" {
      var p := post[..|post| - 1];
      assert (s + post)[..|s + post| - 1] == s + p;
      RStripSuffix(s, p);
    } else {
      assert s + post == s;
    }
  }

  // ---------------------------------------------------------------------
  // join and split
  // ---------------------------------------------------------------------

  /** Python `sep.join(parts)`. */
  function Join(parts: seq<string>, sep: string): string
  {
    if |parts| == 0 then ""
    else if |parts| == 1 then parts[0]
    else parts[0] + sep + Join(parts[1..], sep)
  }

  /** Python `s.split(c)` for a one-character separator. */
  function Split(s: string, c: char): (r: seq<string>)
    ensures |r| >= 1
    decreases |s|
  {
    if s == "" then [""]
    else if s[0] == c then [""] + Split(s[1..], c)
    else
      var rest := Split(s[1..], c);
      [[s[0]] + rest[0]] + rest[1..]
  }

  /** A piece without the separator splits into itself. */
  lemma {:induction false} SplitPlain(p: string, c: char)
    requires !HasChar(p, c)
    ensures Split(p, c) == [p]
    decreases |p|
  {
    if p != "" {
      assert p[0] != c;
      SplitPlain(p[1..], c);
      assert [p[0]] + p[1..] == p;
    }
  }

  /** Splitting at the first separator. */
  lemma {:induction false} SplitAtSeparator(p: string, c: char, rest: string)
    requires !HasChar(p, c)
    ensures Split(p + [c] + rest, c) == [p] + Split(rest, c)
    decreases |p|
  {
    var s := p + [c] + rest;
    if p == "" {
      assert s[0] == c && s[1..] == rest;
    } else {
      assert s[0] == p[0] && p[0] != c;
      assert s[1..] == p[1..] + [c] + rest;
      SplitAtSeparator(p[1..], c, rest);
      assert [p[0]] + p[1..] == p;
    }
  }

  /** `split` undoes `join` when no part contains the separator. */
  lemma {:induction false} SplitJoin(parts: seq<string>, c: char)
    requires |parts| >= 1
    requires forall i :: 0 <= i < |parts| ==> !HasChar(parts[i], c)
    ensures Split(Join(parts, [c]), c) == parts
    decreases |parts|
  {
    if |parts| == 1 {
      SplitPlain(parts[0], c);
    } else {
      SplitJoin(parts[1..], c);
      SplitAtSeparator(parts[0], c, Join(parts[1..], [c]));
      assert [parts[0]] + parts[1..] == parts;
    }
  }

  // ---------------------------------------------------------------------
  // Integer renderings
  // ---------------------------------------------------------------------

  const DecimalDigits: string := "0123456789"
  const HexDigits: string := "0123456789abcdef"

  function NatDecimal(n: nat): (r: string)
    ensures |r| >= 1
  {
    if n < 10 then [DecimalDigits[n]] else NatDecimal(n / 10) + [DecimalDigits[n % 10]]
  }

  /** Python `str(n)` for an integer. */
  function Decimal(n: int): string
  {
    if n < 0 then "-" + NatDecimal(-n) else NatDecimal(n)
  }

  /** Python `format(n, 'x')` for a natural number: lower-case hex digits, no padding. */
  function NatHex(n: nat): (r: string)
    ensures |r| >= 1
  {
    if n < 16 then [HexDigits[n]] else NatHex(n / 16) + [HexDigits[n % 16]]
  }

  /**
   * Python `format(n, '02x')`: hexadecimal, zero-padded to at least two
   * characters; a negative number keeps its minus sign and is not padded
   * further, since the sign already makes two characters.
   */
  function Hex02(n: int): string
  {
    if n < 0 then "-" + NatHex(-n)
    else if n < 16 then "0" + NatHex(n)
    else NatHex(n)
  }

  predicate IsHexDigit(c: char)
  {
    '0' <= c <= '9' || 'a' <= c <= 'f'
  }

  /** The value of a lower-case hex digit. */
  function HexValue(c: char): (v: nat)
    requires IsHexDigit(c)
    ensures v < 16 && HexDigits[v] == c
  {
    if '0' <= c <= '9' then c as int - '0' as int else c as int - 'a' as int + 10
  }

  /** Reading a digit back gives the number it was written for. */
  lemma HexValueOfDigit(d: nat)
    requires d < 16
    ensures IsHexDigit(HexDigits[d]) && HexValue(HexDigits[d]) == d
  {
  }

  /**
   * A byte in 0..255 is written as exactly two hex digits, high nibble
   * first.
   */
  lemma Hex02OfByte(n: int)
    requires 0 <= n < 256
    ensures Hex02(n) == [HexDigits[n / 16], HexDigits[n % 16]]
  {
    if n >= 16 {
      assert NatHex(n / 16) == [HexDigits[n / 16]];
    }
  }
}
