/** The string operations of JavaScript that the pipeline relies on:
    case folding, substring search, `split`/`join`, `trim`, `parseInt`,
    number formatting and the two regular-expression replacements used to
    build file names. Strings are sequences of characters; case folding and
    the whitespace class cover ASCII only. */
module Text {
  import opened Wrappers

  /** The ASCII members of JavaScript's `\s` class. */
  predicate IsWhitespace(c: char) {
    c == ' ' || c == '\t' || c == '\n' || c == '\U{B}' || c == '\U{C}' || c == '\r'
  }

  predicate IsDigit(c: char) {
    '0' <= c <= '9'
  }

  predicate IsAsciiAlnum(c: char) {
    'a' <= c <= 'z' || 'A' <= c <= 'Z' || IsDigit(c)
  }

  function LowerChar(c: char): char {
    if 'A' <= c <= 'Z' then (c as int + 32) as char else c
  }

  /** `s.toLowerCase()` on ASCII letters; every other character is kept. */
  function Lower(s: string): (r: string)
    ensures |r| == |s|
    ensures forall i :: 0 <= i < |s| ==> r[i] == LowerChar(s[i])
  {
    seq(|s|, i requires 0 <= i < |s| => LowerChar(s[i]))
  }

  predicate StartsWith(s: string, prefix: string) {
    |prefix| <= |s| && s[..|prefix|] == prefix
  }

  predicate EndsWith(s: string, suffix: string) {
    |suffix| <= |s| && s[|s| - |suffix|..] == suffix
  }

  /** `s.includes(t)`: t occurs somewhere in s. */
  predicate Contains(s: string, t: string)
    decreases |s|
  {
    StartsWith(s, t) || (|s| > 0 && Contains(s[1..], t))
  }

  /** An occurrence at position i is found by the search. */
  lemma {:induction false} ContainsAt(s: string, t: string, i: nat)
    requires i + |t| <= |s| && s[i..i + |t|] == t
    ensures Contains(s, t)
    decreases i
  {
    if i == 0 {
      assert s[..|t|] == t;
    } else {
      assert s[1..][i - 1..i - 1 + |t|] == s[i..i + |t|];
      ContainsAt(s[1..], t, i - 1);
    }
  }

  // ----- split and join -----

  /** `s.split(sep)` for a one-character separator. The empty string gives
      one empty piece, and a separator at either end gives an empty piece
      there. */
  function Split(s: string, sep: char): (pieces: seq<string>)
    ensures |pieces| >= 1
    decreases |s|
  {
    if s == [] then [""]
    else
      var rest := Split(s[1..], sep);
      if s[0] == sep then [""] + rest else [[s[0]] + rest[0]] + rest[1..]
  }

  /** `parts.join(sep)`: no separator before the first part or after the last. */
  function Join(parts: seq<string>, sep: string): string
    decreases |parts|
  {
    if parts == [] then ""
    else if |parts| == 1 then parts[0]
    else parts[0] + sep + Join(parts[1..], sep)
  }

  /** No piece of a split contains the separator. */
  lemma {:induction false} SplitPiecesAvoidSeparator(s: string, sep: char)
    ensures forall p :: p in Split(s, sep) ==> sep !in p
    decreases |s|
  {
    if s != [] {
      SplitPiecesAvoidSeparator(s[1..], sep);
      var rest := Split(s[1..], sep);
      if s[0] != sep {
        assert rest[0] in rest;
        forall p | p in Split(s, sep) ensures sep !in p {
          if p != [s[0]] + rest[0] {
            assert p in rest[1..];
          }
        }
      }
    }
  }

  /** Joining the pieces of a split with the separator gives back the string. */
  lemma {:induction false} JoinSplit(s: string, sep: char)
    ensures Join(Split(s, sep), [sep]) == s
    decreases |s|
  {
    if s != [] {
      JoinSplit(s[1..], sep);
      var rest := Split(s[1..], sep);
      if s[0] == sep {
        assert ([""] + rest)[1..] == rest;
        assert Join([""] + rest, [sep]) == "" + [sep] + Join(rest, [sep]);
      } else {
        var pieces := [[s[0]] + rest[0]] + rest[1..];
        if |rest| == 1 {
          assert Join(pieces, [sep]) == [s[0]] + rest[0];
        } else {
          assert pieces[1..] == rest[1..];
          assert Join(rest, [sep]) == rest[0] + [sep] + Join(rest[1..], [sep]);
          assert Join(pieces, [sep]) == ([s[0]] + rest[0]) + [sep] + Join(rest[1..], [sep]);
        }
        assert s == [s[0]] + s[1..];
      }
    }
  }

  lemma {:induction false} SplitWithoutSeparator(p: string, sep: char)
    requires sep !in p
    ensures Split(p, sep) == [p]
    decreases |p|
  {
    if p != [] {
      assert sep !in p[1..];
      SplitWithoutSeparator(p[1..], sep);
      assert p == [p[0]] + p[1..];
    }
  }

  lemma {:induction false} SplitAfterPiece(p: string, sep: char, t: string)
    requires sep !in p
    ensures Split(p + [sep] + t, sep) == [p] + Split(t, sep)
    decreases |p|
  {
    if p == [] {
      assert p + [sep] + t == [sep] + t;
      assert ([sep] + t)[1..] == t;
    } else {
      assert sep !in p[1..];
      SplitAfterPiece(p[1..], sep, t);
      assert (p + [sep] + t)[1..] == p[1..] + [sep] + t;
      assert p == [p[0]] + p[1..];
    }
  }

  /** Splitting a join gives back the parts, when no part holds the separator. */
  lemma {:induction false} SplitJoin(parts: seq<string>, sep: char)
    requires |parts| >= 1
    requires forall p :: p in parts ==> sep !in p
    ensures Split(Join(parts, [sep]), sep) == parts
    decreases |parts|
  {
    if |parts| == 1 {
      SplitWithoutSeparator(parts[0], sep);
    } else {
      assert parts[0] in parts;
      assert forall p :: p in parts[1..] ==> p in parts;
      SplitJoin(parts[1..], sep);
      SplitAfterPiece(parts[0], sep, Join(parts[1..], [sep]));
      assert parts == [parts[0]] + parts[1..];
    }
  }

  // ----- trim -----

  /** Drops leading whitespace; what remains is a suffix of s. */
  function TrimStart(s: string): (r: string)
    ensures |r| <= |s| && r == s[|s| - |r|..]
    ensures r == [] || !IsWhitespace(r[0])
    ensures forall i :: 0 <= i < |s| - |r| ==> IsWhitespace(s[i])
    decreases |s|
  {
    if |s| > 0 && IsWhitespace(s[0]) then TrimStart(s[1..]) else s
  }

  /** Drops trailing whitespace; what remains is a prefix of s. */
  function TrimEnd(s: string): (r: string)
    ensures |r| <= |s| && r == s[..|r|]
    ensures r == [] || !IsWhitespace(r[|r| - 1])
    ensures forall i :: |r| <= i < |s| ==> IsWhitespace(s[i])
    decreases |s|
  {
    if |s| > 0 && IsWhitespace(s[|s| - 1]) then TrimEnd(s[..|s| - 1]) else s
  }

  /** `s.trim()`. */
  function Trim(s: string): (r: string)
    ensures r == [] || (!IsWhitespace(r[0]) && !IsWhitespace(r[|r| - 1]))
  {
    TrimEnd(TrimStart(s))
  }

  // ----- numbers -----

  /** The longest prefix of s made of decimal digits. */
  function DigitPrefix(s: string): (r: string)
    ensures |r| <= |s| && r == s[..|r|]
    ensures forall i :: 0 <= i < |r| ==> IsDigit(r[i])
    ensures |r| < |s| ==> !IsDigit(s[|r|])
    decreases |s|
  {
    if |s| > 0 && IsDigit(s[0]) then [s[0]] + DigitPrefix(s[1..]) else []
  }

  function DigitsValue(d: string): nat
    requires forall i :: 0 <= i < |d| ==> IsDigit(d[i])
    decreases |d|
  {
    if d == [] then 0
    else
      assert IsDigit(d[|d| - 1]);
      DigitsValue(d[..|d| - 1]) * 10 + (d[|d| - 1] as int - '0' as int)
  }

  /** `parseInt(s)` in base ten: leading whitespace, an optional sign, then
      the longest run of digits; no digit at all is NaN (None). */
  function ParseInt(s: string): Option<int> {
    var t := TrimStart(s);
    var negative := |t| > 0 && t[0] == '-';
    var unsigned := if |t| > 0 && (t[0] == '-' || t[0] == '+') then t[1..] else t;
    var digits := DigitPrefix(unsigned);
    if digits == [] then None
    else Some(if negative then -(DigitsValue(digits) as int) else DigitsValue(digits))
  }

  function DigitChar(n: nat): char
    requires n < 10
  {
    ('0' as int + n) as char
  }

  /** The decimal form of a natural number, as a template literal prints it. */
  function NatToString(n: nat): (r: string)
    ensures |r| >= 1
    ensures forall i :: 0 <= i < |r| ==> IsDigit(r[i])
  {
    if n < 10 then [DigitChar(n)] else NatToString(n / 10) + [DigitChar(n % 10)]
  }

  function IntToString(n: int): string {
    if n < 0 then "-" + NatToString(-n) else NatToString(n)
  }

  /** The digit run ends where the digits end. */
  lemma {:induction false} DigitPrefixStops(d: string, rest: string)
    requires forall i :: 0 <= i < |d| ==> IsDigit(d[i])
    requires rest == [] || !IsDigit(rest[0])
    ensures DigitPrefix(d + rest) == d
    decreases |d|
  {
    if d == [] {
      assert d + rest == rest;
    } else {
      DigitPrefixStops(d[1..], rest);
      assert (d + rest)[1..] == d[1..] + rest;
      assert d == [d[0]] + d[1..];
    }
  }

  lemma {:induction false} DigitsValueOfNatToString(n: nat)
    ensures DigitsValue(NatToString(n)) == n
  {
    if n >= 10 {
      DigitsValueOfNatToString(n / 10);
      var r := NatToString(n);
      assert r[..|r| - 1] == NatToString(n / 10);
    }
  }

  /** `parseInt` reads back a printed number from the front of a string,
      whatever non-digit follows it. */
  lemma ParseIntReadsLeadingNumber(n: nat, rest: string)
    requires rest == [] || !IsDigit(rest[0])
    ensures ParseInt(NatToString(n) + rest) == Some(n)
  {
    var s := NatToString(n) + rest;
    assert s[0] == NatToString(n)[0];
    assert !IsWhitespace(s[0]) && s[0] != '-' && s[0] != '+';
    assert TrimStart(s) == s;
    DigitPrefixStops(NatToString(n), rest);
    DigitsValueOfNatToString(n);
  }

  /** `parseInt` reads back a printed number. */
  lemma ParseIntOfNatToString(n: nat)
    ensures ParseInt(NatToString(n)) == Some(n)
  {
    ParseIntReadsLeadingNumber(n, []);
    assert NatToString(n) + [] == NatToString(n);
  }

  // ----- the two file-name replacements -----

  /** `s.replace(/\s+/g, '_')`: each maximal run of whitespace becomes one
      underscore. */
  function UnderscoreWhitespace(s: string): (r: string)
    ensures |r| <= |s|
    ensures forall i :: 0 <= i < |r| ==> !IsWhitespace(r[i])
    decreases |s|
  {
    if s == [] then []
    else if IsWhitespace(s[0]) then "_" + UnderscoreWhitespace(TrimStart(s[1..]))
    else [s[0]] + UnderscoreWhitespace(s[1..])
  }

  /** Text without whitespace passes through unchanged. */
  lemma {:induction false} UnderscoreWhitespaceKeepsPlainText(s: string)
    requires forall i :: 0 <= i < |s| ==> !IsWhitespace(s[i])
    ensures UnderscoreWhitespace(s) == s
    decreases |s|
  {
    if s != [] {
      UnderscoreWhitespaceKeepsPlainText(s[1..]);
      assert s == [s[0]] + s[1..];
    }
  }

  /** `s.replace(/[^a-zA-Z0-9]/g, '_')`: one character for one, every
      character that is not an ASCII letter or digit replaced. */
  function Sanitize(s: string): (r: string)
    ensures |r| == |s|
    ensures forall i :: 0 <= i < |s| ==> r[i] == if IsAsciiAlnum(s[i]) then s[i] else '_'
  {
    seq(|s|, i requires 0 <= i < |s| => if IsAsciiAlnum(s[i]) then s[i] else '_')
  }

  /** Sanitizing twice changes nothing more, and the result holds only
      letters, digits and underscores. */
  lemma SanitizeIdempotent(s: string)
    ensures Sanitize(Sanitize(s)) == Sanitize(s)
    ensures forall i :: 0 <= i < |s| ==> IsAsciiAlnum(Sanitize(s)[i]) || Sanitize(s)[i] == '_'
  {
  }
}
