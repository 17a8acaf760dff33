/**
  The subset of Go's `strings`, `strconv` and `unicode` behaviour the alert
  dispatcher relies on, over `string` = `seq<char>` (one char per rune).

  Case mapping is ASCII-only; see README for what that leaves out.
 */
module Strings {

  import opened Optional

  /** `p` is a prefix of `s` (Go's strings.HasPrefix). */
  predicate IsPrefix(p: string, s: string) {
    |p| <= |s| && s[..|p|] == p
  }

  /** `sub` occurs in `s` starting at index `i`. */
  predicate OccursAt(s: string, sub: string, i: int) {
    0 <= i && i + |sub| <= |s| && s[i..i + |sub|] == sub
  }

  /** Go's strings.Contains, written so that it can be evaluated. */
  predicate Contains(s: string, sub: string)
    decreases |s|
  {
    IsPrefix(sub, s) || (|s| > 0 && Contains(s[1..], sub))
  }

  lemma {:induction false} ContainsIff(s: string, sub: string)
    ensures Contains(s, sub) <==> exists i :: OccursAt(s, sub, i)
    decreases |s|
  {
    if IsPrefix(sub, s) {
      assert OccursAt(s, sub, 0);
    } else if |s| > 0 {
      ContainsIff(s[1..], sub);
      if Contains(s[1..], sub) {
        var i :| OccursAt(s[1..], sub, i);
        assert s[i + 1..i + 1 + |sub|] == s[1..][i..i + |sub|];
        assert OccursAt(s, sub, i + 1);
      }
      if exists i :: OccursAt(s, sub, i) {
        var i :| OccursAt(s, sub, i);
        assert i != 0;
        assert s[1..][i - 1..i - 1 + |sub|] == s[i..i + |sub|];
        assert OccursAt(s[1..], sub, i - 1);
      }
    }
  }

  /** Any text that has `sub` sitting at a known place contains it. */
  lemma ContainsMiddle(a: string, sub: string, b: string)
    ensures Contains(a + sub + b, sub)
  {
    var s := a + sub + b;
    assert s[|a|..|a| + |sub|] == sub;
    assert OccursAt(s, sub, |a|);
    ContainsIff(s, sub);
  }

  /** Containment is preserved by surrounding text. */
  lemma ContainsWithin(a: string, s: string, b: string, sub: string)
    requires Contains(s, sub)
    ensures Contains(a + s + b, sub)
  {
    ContainsIff(s, sub);
    var i :| OccursAt(s, sub, i);
    var t := a + s + b;
    assert t[|a| + i..|a| + i + |sub|] == s[i..i + |sub|];
    assert OccursAt(t, sub, |a| + i);
    ContainsIff(t, sub);
  }

  /** Concatenation is associative (stated for use on long renderings). */
  lemma Assoc(a: string, b: string, c: string)
    ensures a + b + c == a + (b + c)
  {
  }

  /** A text that contains a pattern contains every prefix of it. */
  lemma ContainsPrefixOf(s: string, sub: string, p: string)
    requires Contains(s, sub) && IsPrefix(p, sub)
    ensures Contains(s, p)
  {
    ContainsIff(s, sub);
    var i :| OccursAt(s, sub, i);
    assert s[i..i + |p|] == s[i..i + |sub|][..|p|];
    assert OccursAt(s, p, i);
    ContainsIff(s, p);
  }

  /** Containment survives appending text. */
  lemma ContainsExtend(s: string, t: string, sub: string)
    requires Contains(s, sub)
    ensures Contains(s + t, sub)
  {
    ContainsWithin([], s, t, sub);
    assert [] + s + t == s + t;
  }

  /** Appending a character the pattern does not use cannot create an occurrence. */
  lemma NotContainsAppend(s: string, c: char, sub: string)
    requires !Contains(s, sub) && c !in sub
    ensures !Contains(s + [c], sub)
  {
    ContainsIff(s, sub);
    ContainsIff(s + [c], sub);
    var t := s + [c];
    forall i | 0 <= i && i + |sub| <= |t|
      ensures !OccursAt(t, sub, i)
    {
      if i + |sub| <= |s| {
        assert t[i..i + |sub|] == s[i..i + |sub|];
        assert !OccursAt(s, sub, i);
      } else {
        assert t[i..i + |sub|][|sub| - 1] == c;
      }
    }
  }

  /** A text without character `c` cannot contain a pattern that has `c`. */
  lemma NotContainsForeignChar(s: string, sub: string, c: char)
    requires c in sub && c !in s
    ensures !Contains(s, sub)
  {
    ContainsIff(s, sub);
    var k :| 0 <= k < |sub| && sub[k] == c;
    forall i | 0 <= i
      ensures !OccursAt(s, sub, i)
    {
      if i + |sub| <= |s| {
        assert s[i..i + |sub|][k] == s[i + k];
      }
    }
  }

  // ---------------------------------------------------------------------------
  // Case mapping (ASCII letters only)

  function LowerChar(c: char): char {
    if 'A' <= c <= 'Z' then (c as int + 32) as char else c
  }

  function UpperChar(c: char): char {
    if 'a' <= c <= 'z' then (c as int - 32) as char else c
  }

  /** strings.ToLower restricted to ASCII letters: a character-wise map. */
  function ToLower(s: string): (r: string)
    ensures |r| == |s|
    ensures forall i :: 0 <= i < |s| ==> r[i] == LowerChar(s[i])
  {
    seq(|s|, i requires 0 <= i < |s| => LowerChar(s[i]))
  }

  /** strings.ToUpper restricted to ASCII letters: a character-wise map. */
  function ToUpper(s: string): (r: string)
    ensures |r| == |s|
    ensures forall i :: 0 <= i < |s| ==> r[i] == UpperChar(s[i])
  {
    seq(|s|, i requires 0 <= i < |s| => UpperChar(s[i]))
  }

  /** Upper-casing ignores the case of its input: "p1" and "P1" agree. */
  lemma ToUpperOfLower(s: string)
    ensures ToUpper(ToLower(s)) == ToUpper(s)
  {
  }

  // ---------------------------------------------------------------------------
  // Whitespace (Go's unicode.IsSpace) and strings.TrimSpace

  /** The characters Go's unicode.IsSpace accepts. */
  const Spaces: set<char> := {
    '\t', '\n', '\U{000B}', '\U{000C}', '\r', ' ', '\U{0085}', '\U{00A0}', '\U{1680}',
    '\U{2000}', '\U{2001}', '\U{2002}', '\U{2003}', '\U{2004}', '\U{2005}', '\U{2006}',
    '\U{2007}', '\U{2008}', '\U{2009}', '\U{200A}',
    '\U{2028}', '\U{2029}', '\U{202F}', '\U{205F}', '\U{3000}'
  }

  predicate IsSpace(c: char) {
    c in Spaces
  }

  function TrimLeft(s: string): (r: string)
    ensures |r| <= |s| && r == s[|s| - |r|..]
    ensures |r| == 0 || !IsSpace(r[0])
    ensures forall i :: 0 <= i < |s| - |r| ==> IsSpace(s[i])
    decreases |s|
  {
    if |s| > 0 && IsSpace(s[0]) then TrimLeft(s[1..]) else s
  }

  function TrimRight(s: string): (r: string)
    ensures |r| <= |s| && r == s[..|r|]
    ensures |r| == 0 || !IsSpace(r[|r| - 1])
    ensures forall i :: |r| <= i < |s| ==> IsSpace(s[i])
    decreases |s|
  {
    if |s| > 0 && IsSpace(s[|s| - 1]) then TrimRight(s[..|s| - 1]) else s
  }

  /** strings.TrimSpace: the longest infix of `s` that neither starts nor ends with white space. */
  function TrimSpace(s: string): (r: string)
  {
    TrimLeft(TrimRight(s))
  }

  /** `r` is the infix of `s` at `i`, and everything around it is white space. */
  ghost predicate TrimmedAt(s: string, r: string, i: int) {
    && 0 <= i && i + |r| <= |s| && r == s[i..i + |r|]
    && (forall k :: 0 <= k < i ==> IsSpace(s[k]))
    && (forall k :: i + |r| <= k < |s| ==> IsSpace(s[k]))
  }

  /** TrimSpace returns an infix of its input, dropping only white space on either side. */
  lemma TrimSpaceIsInfix(s: string)
    ensures exists i :: TrimmedAt(s, TrimSpace(s), i)
  {
    var m := TrimRight(s);
    var r := TrimLeft(m);
    var i := |m| - |r|;
    assert m == s[..|m|];
    assert r == m[i..];
    assert r == s[i..i + |r|];
    assert forall k :: 0 <= k < i ==> IsSpace(m[k]);
    assert forall k :: 0 <= k < i ==> m[k] == s[k];
    assert forall k :: i + |r| <= k < |s| ==> IsSpace(s[k]);
    assert TrimSpace(s) == r;
    assert TrimmedAt(s, TrimSpace(s), i);
  }

  /** The trimmed text neither starts nor ends with white space. */
  lemma TrimSpaceEnds(s: string)
    ensures |TrimSpace(s)| == 0 || !IsSpace(TrimSpace(s)[0])
    ensures |TrimSpace(s)| == 0 || !IsSpace(TrimSpace(s)[|TrimSpace(s)| - 1])
  {
    var m := TrimRight(s);
    var r := TrimLeft(m);
    if |r| > 0 {
      assert r == m[|m| - |r|..];
      assert r[|r| - 1] == m[|m| - 1];
    }
  }

  /** Trimming twice is trimming once. */
  lemma TrimSpaceIdempotent(s: string)
    ensures TrimSpace(TrimSpace(s)) == TrimSpace(s)
  {
    var r := TrimSpace(s);
    TrimSpaceEnds(s);
    if |r| > 0 {
      assert TrimRight(r) == r;
      assert TrimLeft(r) == r;
    }
  }

  /** Characters absent from the input are absent from the trimmed text. */
  lemma TrimSpaceSubset(s: string, c: char)
    requires c !in s
    ensures c !in TrimSpace(s)
  {
    TrimSpaceIsInfix(s);
  }

  // ---------------------------------------------------------------------------
  // strings.Join and its inverse, splitting at a separator character

  /** strings.Join(parts, sep). */
  function Join(parts: seq<string>, sep: string): string
    decreases |parts|
  {
    if |parts| == 0 then ""
    else if |parts| == 1 then parts[0]
    else parts[0] + sep + Join(parts[1..], sep)
  }

  /** strings.Split(s, [c]): the pieces of `s` between occurrences of `c`. */
  function Split(s: string, c: char): (r: seq<string>)
    ensures |r| > 0
    decreases |s|
  {
    if |s| == 0 then [""]
    else
      var rest := Split(s[1..], c);
      if s[0] == c then [""] + rest else [[s[0]] + rest[0]] + rest[1..]
  }

  lemma {:induction false} SplitNoSeparator(s: string, c: char)
    requires c !in s
    ensures Split(s, c) == [s]
    decreases |s|
  {
    if |s| > 0 {
      SplitNoSeparator(s[1..], c);
      assert [s[0]] + s[1..] == s;
    }
  }

  lemma {:induction false} SplitAfterPiece(p: string, c: char, t: string)
    requires c !in p
    ensures Split(p + [c] + t, c) == [p] + Split(t, c)
    decreases |p|
  {
    if |p| == 0 {
      assert p + [c] + t == [c] + t;
      assert ([c] + t)[1..] == t;
    } else {
      var s := p + [c] + t;
      assert s[1..] == p[1..] + [c] + t;
      SplitAfterPiece(p[1..], c, t);
      assert [p[0]] + p[1..] == p;
    }
  }

  /** Joining pieces that do not contain the separator and splitting again gives the pieces back. */
  lemma {:induction false} SplitJoin(parts: seq<string>, c: char)
    requires |parts| > 0
    requires forall i :: 0 <= i < |parts| ==> c !in parts[i]
    ensures Split(Join(parts, [c]), c) == parts
    decreases |parts|
  {
    if |parts| == 1 {
      SplitNoSeparator(parts[0], c);
    } else {
      SplitJoin(parts[1..], c);
      SplitAfterPiece(parts[0], c, Join(parts[1..], [c]));
      assert [parts[0]] + parts[1..] == parts;
    }
  }

  /** Joining only inserts separators: every character comes from a piece or from `sep`. */
  lemma {:induction false} JoinChars(parts: seq<string>, sep: string, x: char)
    requires x !in sep
    requires forall i :: 0 <= i < |parts| ==> x !in parts[i]
    ensures x !in Join(parts, sep)
    decreases |parts|
  {
    if |parts| > 1 {
      JoinChars(parts[1..], sep, x);
    }
  }

  // ---------------------------------------------------------------------------
  // Decimal numerals: fmt's %d and strconv.ParseInt(s, 10, 64)

  predicate IsDigit(c: char) { '0' <= c <= '9' }

  function DigitChar(d: nat): char
    requires d < 10
  {
    (d + '0' as int) as char
  }

  function DigitValue(c: char): nat
    requires IsDigit(c)
  {
    c as int - '0' as int
  }

  lemma DigitRoundTrip(d: nat)
    requires d < 10
    ensures IsDigit(DigitChar(d)) && DigitValue(DigitChar(d)) == d
  {
  }

  /** The decimal numeral of `n`, without leading zeros. */
  function NatToString(n: nat): (r: string)
    ensures |r| > 0 && forall i :: 0 <= i < |r| ==> IsDigit(r[i])
    decreases n
  {
    if n < 10 then [DigitChar(n)] else NatToString(n / 10) + [DigitChar(n % 10)]
  }

  /** fmt.Sprintf("%d", n). */
  function IntToString(n: int): string {
    if n < 0 then "-" + NatToString(-n) else NatToString(n)
  }

  predicate AllDigits(s: string) {
    forall i :: 0 <= i < |s| ==> IsDigit(s[i])
  }

  /** The value of a run of decimal digits. */
  function DigitsValue(s: string): nat
    requires AllDigits(s)
    decreases |s|
  {
    if |s| == 0 then 0 else DigitsValue(s[..|s| - 1]) * 10 + DigitValue(s[|s| - 1])
  }

  lemma {:induction false} DigitsValueOfNatToString(n: nat)
    ensures DigitsValue(NatToString(n)) == n
    decreases n
  {
    if n >= 10 {
      DigitsValueOfNatToString(n / 10);
      var s := NatToString(n);
      assert s[..|s| - 1] == NatToString(n / 10);
    }
  }

  const Int64Min: int := -0x8000_0000_0000_0000
  const Int64Max: int := 0x7FFF_FFFF_FFFF_FFFF

  /** The unsigned part of strconv.ParseInt for base 10: one or more digits, no underscores. */
  function ParseUnsigned(s: string): Option<nat> {
    if |s| > 0 && AllDigits(s) then Some(DigitsValue(s)) else None
  }

  /**
    strconv.ParseInt(s, 10, 64): an optional sign, then decimal digits; a
    value outside the int64 range is a range error.
   */
  function ParseInt64(s: string): (r: Option<int>)
    ensures r.Some? ==> Int64Min <= r.value <= Int64Max
    ensures r.Some? ==> |s| > 0
  {
    if |s| == 0 then None
    else
      var neg := s[0] == '-';
      var digits := if s[0] == '+' || s[0] == '-' then s[1..] else s;
      match ParseUnsigned(digits)
      case None => None
      case Some(u) =>
        if neg then (if u > -Int64Min then None else Some(0 - u as int))
        else (if u > Int64Max then None else Some(u))
  }

  /**
    What ParseInt64 accepts: an optional sign and one or more digits, read as
    a decimal number; it is a range error when that falls outside int64.
   */
  lemma ParseInt64Accepts(sign: string, d: string)
    requires sign == "" || sign == "+" || sign == "-"
    requires |d| > 0 && AllDigits(d)
    ensures var v := if sign == "-" then 0 - DigitsValue(d) else DigitsValue(d);
            ParseInt64(sign + d) == (if Int64Min <= v <= Int64Max then Some(v) else None)
  {
    var s := sign + d;
    if sign == "" {
      assert s == d;
      assert IsDigit(s[0]);
    } else {
      assert s[0] == sign[0];
      assert s[1..] == d;
    }
  }

  /**
    What ParseInt64 rejects: the empty text, a sign alone, and any text with a
    character that is neither a digit nor a leading sign.
   */
  lemma ParseInt64Rejects(s: string)
    requires || s == "" || s == "+" || s == "-"
             || exists k :: 0 <= k < |s| && !IsDigit(s[k]) && !(k == 0 && (s[k] == '+' || s[k] == '-'))
    ensures ParseInt64(s).None?
  {
    if s != "" && s != "+" && s != "-" {
      var k :| 0 <= k < |s| && !IsDigit(s[k]) && !(k == 0 && (s[k] == '+' || s[k] == '-'));
      var digits := if s[0] == '+' || s[0] == '-' then s[1..] else s;
      if s[0] == '+' || s[0] == '-' {
        assert digits[k - 1] == s[k];
      } else {
        assert digits[k] == s[k];
      }
      assert !AllDigits(digits);
    }
  }

  /** Printing an int64 with %d and parsing it back with ParseInt gives the same number. */
  lemma ParseIntToString(n: int)
    requires Int64Min <= n <= Int64Max
    ensures ParseInt64(IntToString(n)) == Some(n)
  {
    if n < 0 {
      var s := IntToString(n);
      assert s[1..] == NatToString(-n);
      DigitsValueOfNatToString(-n);
    } else {
      var s := NatToString(n);
      DigitsValueOfNatToString(n);
      assert IsDigit(s[0]);
    }
  }
}
