/** The few java.lang.String operations the modelled code relies on, written out
    over Dafny strings. A Dafny char is a Unicode scalar value where a Java char is a
    UTF-16 code unit, so lengths differ for characters outside the Basic Multilingual
    Plane; the modelled code only measures ASCII prefixes and separators. */
module Strings {
  import opened Wrappers

  /** String.startsWith */
  predicate StartsWith(s: string, prefix: string) {
    |prefix| <= |s| && s[..|prefix|] == prefix
  }

  /** The characters String.trim removes: every code unit up to U+0020. */
  predicate IsTrimmable(c: char) {
    c <= ' '
  }

  /** A string on which String.trim is the identity. */
  predicate TrimStable(s: string) {
    s == [] || (!IsTrimmable(s[0]) && !IsTrimmable(s[|s| - 1]))
  }

  /** The number of leading trimmable characters. */
  function LeadingBlanks(s: string): (n: nat)
    ensures n <= |s|
    ensures forall i :: 0 <= i < n ==> IsTrimmable(s[i])
    ensures n == |s| || !IsTrimmable(s[n])
  {
    if s == [] || !IsTrimmable(s[0]) then 0 else 1 + LeadingBlanks(s[1..])
  }

  /** The number of trailing trimmable characters. */
  function TrailingBlanks(s: string): (n: nat)
    ensures n <= |s|
    ensures forall i :: |s| - n <= i < |s| ==> IsTrimmable(s[i])
    ensures n == |s| || !IsTrimmable(s[|s| - n - 1])
  {
    if s == [] || !IsTrimmable(s[|s| - 1]) then 0 else 1 + TrailingBlanks(s[..|s| - 1])
  }

  /** String.trim: the infix that remains once every trimmable character is cut from
      both ends. It starts after the leading blanks, only blanks follow it, and it
      neither starts nor ends with a blank. */
  function Trim(s: string): (r: string)
    ensures LeadingBlanks(s) + |r| <= |s|
    ensures r == s[LeadingBlanks(s)..LeadingBlanks(s) + |r|]
    ensures forall i :: LeadingBlanks(s) + |r| <= i < |s| ==> IsTrimmable(s[i])
    ensures TrimStable(r)
  {
    var t := s[LeadingBlanks(s)..];
    t[..|t| - TrailingBlanks(t)]
  }

  /** Trim is the only way to cut blanks from both ends of a string and be left with
      a string that neither starts nor ends with a blank. */
  lemma TrimUnique(s: string, lo: nat, hi: nat)
    requires lo <= hi <= |s|
    requires forall i :: 0 <= i < lo ==> IsTrimmable(s[i])
    requires forall i :: hi <= i < |s| ==> IsTrimmable(s[i])
    requires TrimStable(s[lo..hi])
    ensures Trim(s) == s[lo..hi]
  {
    var n, r := LeadingBlanks(s), Trim(s);
    if lo < hi {
      assert !IsTrimmable(s[lo]) && !IsTrimmable(s[hi - 1]) by {
        assert s[lo..hi][0] == s[lo];
        assert s[lo..hi][hi - lo - 1] == s[hi - 1];
      }
      assert r[|r| - 1] == s[n + |r| - 1];
    }
  }

  /** Trimming a string that starts and ends with a visible character changes nothing. */
  lemma TrimOfStable(s: string)
    requires TrimStable(s)
    ensures Trim(s) == s
  {
  }

  /** Splits at every occurrence of `sep`, keeping all pieces (empty ones included). */
  function SplitOn(s: string, sep: char): (r: seq<string>)
    ensures |r| >= 1
    ensures forall i :: 0 <= i < |r| ==> sep !in r[i]
    decreases |s|
  {
    if s == [] then [""]
    else if s[0] == sep then [""] + SplitOn(s[1..], sep)
    else
      var rest := SplitOn(s[1..], sep);
      [[s[0]] + rest[0]] + rest[1..]
  }

  /** Joins pieces with `sep` between consecutive ones (String.join). */
  function Join(pieces: seq<string>, sep: char): string
  {
    if |pieces| == 0 then ""
    else if |pieces| == 1 then pieces[0]
    else pieces[0] + [sep] + Join(pieces[1..], sep)
  }

  /** Joins with a separator string. */
  function JoinWith(pieces: seq<string>, sep: string): string
  {
    if |pieces| == 0 then ""
    else if |pieces| == 1 then pieces[0]
    else pieces[0] + sep + JoinWith(pieces[1..], sep)
  }

  /** Joins without a separator. */
  function Concat(pieces: seq<string>): string
  {
    if pieces == [] then "" else Concat(pieces[..|pieces| - 1]) + pieces[|pieces| - 1]
  }

  /** Concatenation distributes over appending runs of pieces. */
  lemma {:induction false} ConcatAppend(a: seq<string>, b: seq<string>)
    ensures Concat(a + b) == Concat(a) + Concat(b)
    decreases |b|
  {
    if b == [] {
      assert a + b == a;
    } else {
      var ab := a + b;
      assert ab[..|ab| - 1] == a + b[..|b| - 1];
      ConcatAppend(a, b[..|b| - 1]);
    }
  }

  /** Empty pieces concatenate to the empty string. */
  lemma {:induction false} ConcatOfEmpty(pieces: seq<string>)
    requires forall i :: 0 <= i < |pieces| ==> pieces[i] == ""
    ensures Concat(pieces) == ""
    decreases |pieces|
  {
    if pieces != [] {
      ConcatOfEmpty(pieces[..|pieces| - 1]);
    }
  }

  /** Splitting and joining again gives back the string. */
  lemma {:induction false} JoinSplitOn(s: string, sep: char)
    ensures Join(SplitOn(s, sep), sep) == s
    decreases |s|
  {
    if s == [] {
    } else if s[0] == sep {
      JoinSplitOn(s[1..], sep);
      var rest := SplitOn(s[1..], sep);
      assert Join([""] + rest, sep) == "" + [sep] + Join(rest, sep) by {
        assert ([""] + rest)[1..] == rest;
      }
      assert s == [sep] + s[1..];
    } else {
      JoinSplitOn(s[1..], sep);
      var rest := SplitOn(s[1..], sep);
      var r := [[s[0]] + rest[0]] + rest[1..];
      if |rest| == 1 {
        assert Join(r, sep) == [s[0]] + rest[0];
      } else {
        assert r[1..] == rest[1..];
        assert Join(rest, sep) == rest[0] + [sep] + Join(rest[1..], sep);
        assert Join(r, sep) == [s[0]] + rest[0] + [sep] + Join(rest[1..], sep);
      }
      assert s == [s[0]] + s[1..];
    }
  }

  /** A piece without the separator, followed by the separator, splits off as one piece. */
  lemma {:induction false} SplitOnPrefix(p: string, sep: char, rest: string)
    requires sep !in p
    ensures SplitOn(p + [sep] + rest, sep) == [p] + SplitOn(rest, sep)
    decreases |p|
  {
    if p == [] {
      assert p + [sep] + rest == [sep] + rest;
      assert ([sep] + rest)[1..] == rest;
    } else {
      var s := p + [sep] + rest;
      assert s[0] == p[0] && s[1..] == p[1..] + [sep] + rest;
      SplitOnPrefix(p[1..], sep, rest);
      assert [p[0]] + p[1..] == p;
    }
  }

  /** A string without the separator splits into itself alone. */
  lemma {:induction false} SplitOnNoSep(p: string, sep: char)
    requires sep !in p
    ensures SplitOn(p, sep) == [p]
    decreases |p|
  {
    if p != [] {
      SplitOnNoSep(p[1..], sep);
      assert [p[0]] + p[1..] == p;
    }
  }

  /** Joining pieces that do not contain the separator and splitting again gives back the pieces. */
  lemma {:induction false} SplitOnJoin(pieces: seq<string>, sep: char)
    requires |pieces| >= 1
    requires forall i :: 0 <= i < |pieces| ==> sep !in pieces[i]
    ensures SplitOn(Join(pieces, sep), sep) == pieces
    decreases |pieces|
  {
    if |pieces| == 1 {
      SplitOnNoSep(pieces[0], sep);
    } else {
      SplitOnJoin(pieces[1..], sep);
      SplitOnPrefix(pieces[0], sep, Join(pieces[1..], sep));
      assert [pieces[0]] + pieces[1..] == pieces;
    }
  }

  /** Removes trailing empty pieces. */
  function DropTrailingEmpty(pieces: seq<string>): (r: seq<string>)
    ensures |r| <= |pieces| && r == pieces[..|r|]
    ensures forall i :: |r| <= i < |pieces| ==> pieces[i] == ""
    ensures r == [] || r[|r| - 1] != ""
  {
    if pieces == [] || pieces[|pieces| - 1] != "" then pieces
    else DropTrailingEmpty(pieces[..|pieces| - 1])
  }

  /** String.split with a one-character literal pattern: all pieces, then trailing empty ones removed. */
  function JavaSplit(s: string, sep: char): (r: seq<string>)
    ensures |r| <= |SplitOn(s, sep)| && r == SplitOn(s, sep)[..|r|]
    ensures forall i :: |r| <= i < |SplitOn(s, sep)| ==> SplitOn(s, sep)[i] == ""
    ensures r == [] || r[|r| - 1] != ""
    ensures forall i :: 0 <= i < |r| ==> sep !in r[i]
  {
    DropTrailingEmpty(SplitOn(s, sep))
  }

  /** Java's string conversion of a possibly-null String in a concatenation. */
  function Str(s: Option<string>): string {
    match s
    case Some(v) => v
    case None => "null"
  }

  function DigitChar(d: nat): (c: char)
    requires d < 10
  {
    "0123456789"[d]
  }

  /** Decimal text of a natural number (Integer.toString on non-negative values). */
  function NatToString(n: nat): (r: string)
    ensures |r| >= 1
    ensures forall i :: 0 <= i < |r| ==> '0' <= r[i] <= '9'
    ensures n >= 10 ==> |r| >= 2
  {
    if n < 10 then [DigitChar(n)] else NatToString(n / 10) + [DigitChar(n % 10)]
  }

  /** Decimal text of an integer, with a leading minus sign when negative. */
  function IntToString(n: int): string
  {
    if n < 0 then "-" + NatToString(-n) else NatToString(n)
  }

  /** Different numbers have different decimal texts. */
  lemma {:induction false} NatToStringInjective(a: nat, b: nat)
    requires NatToString(a) == NatToString(b)
    ensures a == b
    decreases a
  {
    if a >= 10 && b >= 10 {
      var pa, pb := NatToString(a / 10), NatToString(b / 10);
      var da, db := DigitChar(a % 10), DigitChar(b % 10);
      assert NatToString(a) == pa + [da];
      assert NatToString(b) == pb + [db];
      assert |pa| == |pb|;
      assert pa == (pa + [da])[..|pa|];
      assert pb == (pb + [db])[..|pb|];
      NatToStringInjective(a / 10, b / 10);
      assert da == db;
      DigitCharInjective(a % 10, b % 10);
    } else if a < 10 && b < 10 {
      DigitCharInjective(a, b);
    }
  }

  lemma DigitCharInjective(a: nat, b: nat)
    requires a < 10 && b < 10 && DigitChar(a) == DigitChar(b)
    ensures a == b
  {
  }

  /** Integer.toString is injective. */
  lemma IntToStringInjective(a: int, b: int)
    ensures IntToString(a) == IntToString(b) ==> a == b
  {
    if IntToString(a) == IntToString(b) {
      TextSign(a);
      TextSign(b);
      if a < 0 {
        NegativeTextInjective(-a, -b);
      } else {
        NatToStringInjective(a, b);
      }
    }
  }

  /** The text of a number starts with a minus sign exactly when it is negative. */
  lemma TextSign(n: int)
    ensures |IntToString(n)| >= 1 && (IntToString(n)[0] == '-' <==> n < 0)
  {
    if n >= 0 {
      assert '0' <= NatToString(n)[0] <= '9';
    }
  }

  /** Negative numbers with the same text have the same magnitude. */
  lemma NegativeTextInjective(a: nat, b: nat)
    requires a > 0 && b > 0
    ensures "-" + NatToString(a) == "-" + NatToString(b) ==> a == b
  {
    var sa, sb := "-" + NatToString(a), "-" + NatToString(b);
    if sa == sb {
      assert NatToString(a) == sa[1..] && NatToString(b) == sb[1..];
      NatToStringInjective(a, b);
    }
  }

  /** ASCII lower-casing, as used for case-insensitive HTTP header names. */
  function LowerChar(c: char): char {
    if 'A' <= c <= 'Z' then (c as int + 32) as char else c
  }

  /** String.equalsIgnoreCase restricted to ASCII letters. */
  predicate EqualsIgnoreCase(a: string, b: string) {
    |a| == |b| && forall i :: 0 <= i < |a| ==> LowerChar(a[i]) == LowerChar(b[i])
  }

  /** ASCII upper-casing of one character. */
  function UpperChar(c: char): char {
    if 'a' <= c <= 'z' then (c as int - 32) as char else c
  }

  /** String.toUpperCase restricted to ASCII letters: every other character is kept
      (Java also maps non-ASCII letters, and "ß" to "SS"). */
  function Upper(s: string): (r: string)
    ensures |r| == |s| && forall i :: 0 <= i < |s| ==> r[i] == UpperChar(s[i])
  {
    seq(|s|, i requires 0 <= i < |s| => UpperChar(s[i]))
  }

  /** The roles the transcripts name, upper-cased. */
  lemma RolesUpper()
    ensures Upper("user") == "USER" && Upper("assistant") == "ASSISTANT" && Upper("system") == "SYSTEM"
  {
  }
}
