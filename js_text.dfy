/**
 * The handful of JavaScript string operations the bridge relies on, written
 * out over `seq<char>`: `trim`, `split` on one character, `includes`,
 * `slice(0, n)`, number-to-text conversion, `parseInt` and the `isNaN`
 * test of a string (ECMA-262, section 7.1.4.1.1, StringToNumber).
 */
module JsText {

  datatype Option<T> = None | Some(value: T)

  // ---------------------------------------------------------------------------
  // White space, as String.prototype.trim and StringToNumber see it
  // (WhiteSpace and LineTerminator code points of ECMA-262).
  // ---------------------------------------------------------------------------

  predicate IsSpace(c: char)
  {
    c == '\t' || c == '\n' || c == '\U{000B}' || c == '\U{000C}' || c == '\r' ||
    c == ' ' || c == '\U{00A0}' || c == '\U{1680}' ||
    ('\U{2000}' <= c <= '\U{200A}') ||
    c == '\U{2028}' || c == '\U{2029}' || c == '\U{202F}' || c == '\U{205F}' ||
    c == '\U{3000}' || c == '\U{FEFF}'
  }

  /** `s.trimStart()`: the longest suffix of `s` that does not start with white space. */
  function TrimStart(s: string): (r: string)
    ensures |r| <= |s| && r == s[|s| - |r|..]
    ensures r == [] || !IsSpace(r[0])
    ensures forall i :: 0 <= i < |s| - |r| ==> IsSpace(s[i])
  {
    if s != [] && IsSpace(s[0]) then TrimStart(s[1..]) else s
  }

  /** `s.trimEnd()`: the longest prefix of `s` that does not end with white space. */
  function TrimEnd(s: string): (r: string)
    ensures |r| <= |s| && r == s[..|r|]
    ensures r == [] || !IsSpace(r[|r| - 1])
    ensures forall i :: |r| <= i < |s| ==> IsSpace(s[i])
  {
    if s != [] && IsSpace(s[|s| - 1]) then TrimEnd(s[..|s| - 1]) else s
  }

  predicate IsTrimmed(s: string)
  {
    s == [] || (!IsSpace(s[0]) && !IsSpace(s[|s| - 1]))
  }

  /** `s.trim()`. */
  function Trim(s: string): (r: string)
    ensures IsTrimmed(r)
    ensures |r| <= |s|
  {
    TrimEnd(TrimStart(s))
  }

  /** Trimming a trimmed string changes nothing, so trimming twice is trimming once. */
  lemma TrimIdempotent(s: string)
    ensures Trim(Trim(s)) == Trim(s)
  {
    var t := Trim(s);
    assert TrimStart(t) == t;
    assert TrimEnd(t) == t;
  }

  /** A string with no white space at either end is its own trim. */
  lemma TrimOfTrimmed(s: string)
    requires IsTrimmed(s)
    ensures Trim(s) == s
  {
    assert TrimStart(s) == s;
    assert TrimEnd(s) == s;
  }

  /** Every character of `s.trim()` is a character of `s`. */
  lemma TrimChars(s: string, c: char)
    requires c in Trim(s)
    ensures c in s
  {
    var t := TrimStart(s);
    var r := TrimEnd(t);
    var i :| 0 <= i < |r| && r[i] == c;
    assert r[i] == t[i] by {
      assert r == t[..|r|];
    }
    var j := |s| - |t| + i;
    assert t[i] == s[j] by {
      assert t == s[|s| - |t|..];
    }
  }

  // ---------------------------------------------------------------------------
  // split(',') and its inverse join(',')
  // ---------------------------------------------------------------------------

  /** `s.split(sep)` for a one-character separator; `"".split(sep)` is `[""]`. */
  function Split(s: string, sep: char): (r: seq<string>)
    ensures |r| >= 1
    ensures forall k :: 0 <= k < |r| ==> sep !in r[k]
  {
    if s == [] then [""]
    else
      var rest := Split(s[1..], sep);
      if s[0] == sep then [""] + rest else [[s[0]] + rest[0]] + rest[1..]
  }

  /** `pieces.join(sep)`. */
  function Join(pieces: seq<string>, sep: char): string
  {
    if pieces == [] then ""
    else if |pieces| == 1 then pieces[0]
    else pieces[0] + [sep] + Join(pieces[1..], sep)
  }

  lemma JoinNonEmpty(pieces: seq<string>, sep: char)
    requires |pieces| >= 1 && pieces[0] != []
    ensures Join(pieces, sep) != []
  {
    if |pieces| > 1 {
      assert Join(pieces, sep)[0] == pieces[0][0];
    }
  }

  /** Joining the pieces of a split gives back the string that was split. */
  lemma {:induction false} JoinSplit(s: string, sep: char)
    ensures Join(Split(s, sep), sep) == s
  {
    if s != [] {
      JoinSplit(s[1..], sep);
      var rest := Split(s[1..], sep);
      if s[0] != sep {
        if |rest| == 1 {
        } else {
          assert [[s[0]] + rest[0]] + rest[1..] == [[s[0]] + rest[0]] + rest[1..];
          assert Join(rest, sep) == rest[0] + [sep] + Join(rest[1..], sep);
        }
      }
    }
  }

  /** Splitting a join of separator-free pieces gives back the pieces. */
  lemma {:induction false} SplitJoin(pieces: seq<string>, sep: char)
    requires |pieces| >= 1
    requires forall k :: 0 <= k < |pieces| ==> sep !in pieces[k]
    ensures Split(Join(pieces, sep), sep) == pieces
  {
    if |pieces| == 1 {
      SplitOfPiece(pieces[0], sep);
    } else {
      SplitJoin(pieces[1..], sep);
      SplitPrefix(pieces[0], Join(pieces[1..], sep), sep);
    }
  }

  lemma {:induction false} SplitOfPiece(p: string, sep: char)
    requires sep !in p
    ensures Split(p, sep) == [p]
  {
    if p != [] {
      SplitOfPiece(p[1..], sep);
      assert [p[0]] + p[1..] == p;
    }
  }

  lemma {:induction false} SplitPrefix(p: string, tail: string, sep: char)
    requires sep !in p
    ensures Split(p + [sep] + tail, sep) == [p] + Split(tail, sep)
  {
    var s := p + [sep] + tail;
    if p == [] {
      assert s[0] == sep && s[1..] == tail;
    } else {
      assert s[0] == p[0] && s[1..] == p[1..] + [sep] + tail;
      SplitPrefix(p[1..], tail, sep);
      assert [p[0]] + p[1..] == p;
    }
  }

  // ---------------------------------------------------------------------------
  // includes and slice
  // ---------------------------------------------------------------------------

  predicate OccursAt(s: string, sub: string, i: int)
  {
    0 <= i && i + |sub| <= |s| && s[i..i + |sub|] == sub
  }

  /** `s.includes(sub)`. */
  function Contains(s: string, sub: string): bool
    decreases |s|
  {
    (|sub| <= |s| && s[..|sub|] == sub) || (s != [] && Contains(s[1..], sub))
  }

  /** `includes` holds exactly when `sub` occurs at some position of `s`. */
  lemma ContainsIff(s: string, sub: string)
    ensures Contains(s, sub) <==> exists i :: OccursAt(s, sub, i)
  {
    if Contains(s, sub) {
      var i := ContainsWitness(s, sub);
    }
    forall i | OccursAt(s, sub, i) ensures Contains(s, sub) {
      OccursImpliesContains(s, sub, i);
    }
  }

  lemma {:induction false} ContainsWitness(s: string, sub: string) returns (i: nat)
    requires Contains(s, sub)
    ensures OccursAt(s, sub, i)
    decreases |s|
  {
    if |sub| <= |s| && s[..|sub|] == sub {
      i := 0;
    } else {
      var j := ContainsWitness(s[1..], sub);
      assert s[1..][j..j + |sub|] == s[j + 1..j + 1 + |sub|];
      i := j + 1;
    }
  }

  lemma {:induction false} OccursImpliesContains(s: string, sub: string, i: int)
    requires OccursAt(s, sub, i)
    ensures Contains(s, sub)
    decreases i
  {
    if i > 0 {
      assert s[1..][i - 1..i - 1 + |sub|] == s[i..i + |sub|];
      OccursImpliesContains(s[1..], sub, i - 1);
    }
  }

  /** `s.slice(0, n)` for `n >= 0`. */
  function Take(s: string, n: nat): (r: string)
    ensures |r| == if |s| < n then |s| else n
    ensures r == s[..|r|]
  {
    if |s| <= n then s else s[..n]
  }

  // ---------------------------------------------------------------------------
  // Numbers as text: String(n) for an integral number, and parseInt
  // ---------------------------------------------------------------------------

  function DigitChar(d: nat): char
    requires d < 10
  {
    "0123456789"[d]
  }

  /** Decimal text of a natural number, without leading zeros. */
  function NatText(n: nat): (r: string)
    ensures |r| >= 1
    ensures forall i :: 0 <= i < |r| ==> '0' <= r[i] <= '9'
    ensures r[0] == '0' ==> n == 0
  {
    if n < 10 then [DigitChar(n)] else NatText(n / 10) + [DigitChar(n % 10)]
  }

  /** `String(n)` for an integral number. */
  function IntText(n: int): string
  {
    if n < 0 then "-" + NatText(-n) else NatText(n)
  }

  /** The digit value of `c` in base `radix` (2, 8, 10 or 16), if it is a digit there. */
  function DigitValue(c: char, radix: nat): Option<nat>
  {
    var v :=
      if '0' <= c <= '9' then (c as int) - ('0' as int)
      else if 'a' <= c <= 'f' then (c as int) - ('a' as int) + 10
      else if 'A' <= c <= 'F' then (c as int) - ('A' as int) + 10
      else 99;
    if 0 <= v < radix then Some(v) else None
  }

  predicate IsDigitIn(c: char, radix: nat)
  {
    DigitValue(c, radix).Some?
  }

  /** The longest prefix of `s` made of digits in base `radix`. */
  function DigitPrefix(s: string, radix: nat): (r: string)
    ensures |r| <= |s| && r == s[..|r|]
    ensures forall i :: 0 <= i < |r| ==> IsDigitIn(r[i], radix)
    ensures |r| < |s| ==> !IsDigitIn(s[|r|], radix)
  {
    if s != [] && IsDigitIn(s[0], radix) then [s[0]] + DigitPrefix(s[1..], radix) else ""
  }

  /** The value of a digit string, most significant digit first. */
  function DigitsValue(s: string, radix: nat): nat
  {
    if s == [] then 0
    else
      var last := DigitValue(s[|s| - 1], radix);
      DigitsValue(s[..|s| - 1], radix) * radix + (if last.Some? then last.value else 0)
  }

  /** The unsigned part of `parseInt`: an optional `0x`/`0X` prefix, then the longest run of digits. */
  function ParseUnsigned(u: string): Option<nat>
  {
    var hex := |u| >= 2 && u[0] == '0' && (u[1] == 'x' || u[1] == 'X');
    var radix := if hex then 16 else 10;
    var ds := DigitPrefix(if hex then u[2..] else u, radix);
    if ds == [] then None else Some(DigitsValue(ds, radix))
  }

  /**
   * `parseInt(s)` with no radix argument: leading white space is skipped, one
   * sign is accepted, `0x`/`0X` selects base 16, and the longest run of digits
   * that follows is read; `None` stands for NaN (no digit at all).
   */
  function ParseInt(s: string): Option<int>
  {
    ParseSigned(TrimStart(s))
  }

  /** `parseInt` after the leading white space: one optional sign, then the unsigned part. */
  function ParseSigned(t: string): Option<int>
  {
    if t != [] && t[0] == '-' then Negated(ParseUnsigned(t[1..]))
    else if t != [] && t[0] == '+' then Widened(ParseUnsigned(t[1..]))
    else Widened(ParseUnsigned(t))
  }

  function Negated(o: Option<nat>): Option<int>
  {
    if o.Some? then Some(-(o.value as int)) else None
  }

  function Widened(o: Option<nat>): Option<int>
  {
    if o.Some? then Some(o.value) else None
  }

  lemma NatTextDigits(n: nat)
    ensures forall i :: 0 <= i < |NatText(n)| ==> IsDigitIn(NatText(n)[i], 10)
  {
    var r := NatText(n);
    forall i | 0 <= i < |r| ensures IsDigitIn(r[i], 10) {
      assert '0' <= r[i] <= '9';
    }
  }

  /** The last digit of `NatText(n)` is worth `n % 10`. */
  lemma LastDigitValue(n: nat)
    ensures var r := NatText(n); DigitValue(r[|r| - 1], 10) == Some(n % 10)
  {
  }

  lemma {:induction false} NatTextValue(n: nat)
    ensures DigitsValue(NatText(n), 10) == n
  {
    var r := NatText(n);
    LastDigitValue(n);
    if n >= 10 {
      NatTextValue(n / 10);
      assert r[..|r| - 1] == NatText(n / 10);
      assert DigitsValue(r, 10) == DigitsValue(NatText(n / 10), 10) * 10 + n % 10;
    } else {
      assert r[..|r| - 1] == [];
    }
  }

  lemma NatTextDigitPrefix(s: string)
    requires forall i :: 0 <= i < |s| ==> IsDigitIn(s[i], 10)
    ensures DigitPrefix(s, 10) == s
  {
  }

  lemma ParseUnsignedNatText(n: nat)
    ensures ParseUnsigned(NatText(n)) == Some(n)
  {
    var digits := NatText(n);
    NatTextValue(n);
    NatTextDigits(n);
    NatTextDigitPrefix(digits);
    assert !(|digits| >= 2 && digits[0] == '0');
  }

  /** `parseInt` of a text that starts with `-` and has no leading white space. */
  lemma ParseIntMinus(t: string, v: nat)
    requires TrimStart(t) == t && t != [] && t[0] == '-' && ParseUnsigned(t[1..]) == Some(v)
    ensures ParseInt(t) == Some(-(v as int))
  {
    assert ParseInt(t) == ParseSigned(t);
    assert ParseSigned(t) == Negated(ParseUnsigned(t[1..]));
    assert Negated(Some(v)) == Some(-(v as int));
  }

  /** `parseInt` of a text that starts with neither white space nor a sign. */
  lemma ParseIntUnsigned(t: string, v: nat)
    requires TrimStart(t) == t && t != [] && t[0] != '-' && t[0] != '+' && ParseUnsigned(t) == Some(v)
    ensures ParseInt(t) == Some(v)
  {
    assert ParseInt(t) == ParseSigned(t);
    assert ParseSigned(t) == Widened(ParseUnsigned(t));
    assert Widened(Some(v)) == Some(v as int);
  }

  lemma TrimStartNoSpace(t: string)
    requires t == [] || !IsSpace(t[0])
    ensures TrimStart(t) == t
  {
  }

  lemma TrimEndNoSpace(t: string)
    requires t == [] || !IsSpace(t[|t| - 1])
    ensures TrimEnd(t) == t
  {
  }

  lemma DigitNotSpace(c: char)
    requires '0' <= c <= '9'
    ensures !IsSpace(c)
  {
  }

  /** `parseInt(String(n)) == n`: reading back the decimal text of an integer gives the integer. */
  lemma ParseIntText(n: int)
    ensures ParseInt(IntText(n)) == Some(n)
  {
    if n < 0 {
      ParseIntNegativeText(-n);
    } else {
      ParseIntNatText(n);
    }
  }

  lemma ParseIntNatText(n: nat)
    ensures ParseInt(IntText(n)) == Some(n as int)
  {
    var d := NatText(n);
    ParseUnsignedNatText(n);
    ParseIntDigits(d, n);
  }

  lemma ParseIntNegativeText(m: nat)
    requires m > 0
    ensures ParseInt(IntText(-(m as int))) == Some(-(m as int))
  {
    var d := NatText(m);
    ParseUnsignedNatText(m);
    ParseIntNegative(d, m);
  }

  /** `parseInt` of a text that starts with a digit. */
  lemma ParseIntDigits(d: string, v: nat)
    requires d != [] && '0' <= d[0] <= '9' && ParseUnsigned(d) == Some(v)
    ensures ParseInt(d) == Some(v)
  {
    DigitNotSpace(d[0]);
    TrimStartNoSpace(d);
    ParseIntUnsigned(d, v);
  }

  /** `parseInt` of `-` followed by a text whose unsigned reading is `v`. */
  lemma ParseIntNegative(d: string, v: nat)
    requires ParseUnsigned(d) == Some(v)
    ensures ParseInt("-" + d) == Some(-(v as int))
  {
    var t := "-" + d;
    assert TrimStart(t) == t by {
      assert t[0] == '-' && !IsSpace('-');
      TrimStartNoSpace(t);
    }
    assert t[1..] == d;
    ParseIntMinus(t, v);
  }

  // ---------------------------------------------------------------------------
  // isNaN on a string: StringToNumber accepts an empty (or all-space) string,
  // a StrDecimalLiteral or a NonDecimalIntegerLiteral.
  // ---------------------------------------------------------------------------

  predicate Digits(s: string, radix: nat)
  {
    |s| > 0 && forall i :: 0 <= i < |s| ==> IsDigitIn(s[i], radix)
  }

  /** First index of a character of `cs` in `s`, or `|s|` when there is none. */
  function IndexOfAny(s: string, cs: string): (r: nat)
    ensures r <= |s|
    ensures r < |s| ==> s[r] in cs
    ensures forall i :: 0 <= i < r ==> s[i] !in cs
  {
    if s == [] then 0 else if s[0] in cs then 0 else 1 + IndexOfAny(s[1..], cs)
  }

  /** `0b…`, `0o…` or `0x…` (any case of the letter), at least one digit. */
  predicate NonDecimalIntegerLiteral(s: string)
  {
    |s| > 2 && s[0] == '0' &&
    ((s[1] in "bB" && Digits(s[2..], 2)) ||
     (s[1] in "oO" && Digits(s[2..], 8)) ||
     (s[1] in "xX" && Digits(s[2..], 16)))
  }

  /** `ddd`, `ddd.`, `ddd.ddd` or `.ddd`. */
  predicate Mantissa(m: string)
  {
    var p := IndexOfAny(m, ".");
    if p == |m| then Digits(m, 10)
    else
      var whole, fraction := m[..p], m[p + 1..];
      (whole == [] || Digits(whole, 10)) && (fraction == [] || Digits(fraction, 10)) &&
      (whole != [] || fraction != [])
  }

  predicate SignedInteger(s: string)
  {
    if s != [] && (s[0] == '+' || s[0] == '-') then Digits(s[1..], 10) else Digits(s, 10)
  }

  predicate UnsignedDecimalLiteral(s: string)
  {
    s == "Infinity" ||
    (var e := IndexOfAny(s, "eE");
     Mantissa(s[..e]) && (e == |s| || SignedInteger(s[e + 1..])))
  }

  predicate DecimalLiteral(s: string)
  {
    if s != [] && (s[0] == '+' || s[0] == '-') then UnsignedDecimalLiteral(s[1..])
    else UnsignedDecimalLiteral(s)
  }

  /** `isNaN(s)` for a string `s`. */
  predicate IsNaNText(s: string)
  {
    var t := Trim(s);
    !(t == [] || NonDecimalIntegerLiteral(t) || DecimalLiteral(t))
  }

  /** The text of an integer is never NaN, and neither is a blank string. */
  lemma NumbersAreNotNaN(n: int, blank: string)
    requires forall i :: 0 <= i < |blank| ==> IsSpace(blank[i])
    ensures !IsNaNText(IntText(n))
    ensures !IsNaNText(blank)
  {
    IntTextNotNaN(n);
    BlankNotNaN(blank);
  }

  lemma IntTextNotNaN(n: int)
    ensures !IsNaNText(IntText(n))
  {
    if n < 0 {
      var d := NatText(-n);
      NegativeDigitsNotNaN(d);
      assert IntText(n) == "-" + d;
    } else {
      var d := NatText(n);
      DigitsNotNaN(d);
      assert IntText(n) == d;
    }
  }

  lemma BlankNotNaN(blank: string)
    requires forall i :: 0 <= i < |blank| ==> IsSpace(blank[i])
    ensures !IsNaNText(blank)
  {
    BlankTrimsToEmpty(blank);
  }

  /** `isNaN(s.trim())` is `isNaN(s)`: StringToNumber trims anyway. */
  lemma TrimmedNaN(s: string)
    ensures IsNaNText(Trim(s)) == IsNaNText(s)
  {
    TrimIdempotent(s);
  }

  /** A non-empty string of decimal digits. */
  predicate DecimalDigits(d: string)
  {
    |d| > 0 && forall i :: 0 <= i < |d| ==> '0' <= d[i] <= '9'
  }

  lemma DigitsNotNaN(d: string)
    requires DecimalDigits(d)
    ensures !IsNaNText(d)
  {
    DigitNotSpace(d[0]);
    DigitNotSpace(d[|d| - 1]);
    TrimStartNoSpace(d);
    TrimEndNoSpace(d);
    assert Trim(d) == d;
    DecimalDigitsAreLiteral(d);
    assert d[0] != '+' && d[0] != '-';
    LiteralNotNaN(d);
  }

  lemma NegativeDigitsNotNaN(d: string)
    requires DecimalDigits(d)
    ensures !IsNaNText("-" + d)
  {
    var t := "-" + d;
    assert t[0] == '-' && !IsSpace('-');
    TrimStartNoSpace(t);
    assert t[|t| - 1] == d[|d| - 1];
    DigitNotSpace(d[|d| - 1]);
    TrimEndNoSpace(t);
    assert Trim(t) == t;
    assert t[1..] == d;
    DecimalDigitsAreLiteral(d);
    assert DecimalLiteral(t);
    LiteralNotNaN(t);
  }

  lemma LiteralNotNaN(t: string)
    requires Trim(t) == t && DecimalLiteral(t)
    ensures !IsNaNText(t)
  {
  }

  lemma DecimalDigitsAreLiteral(d: string)
    requires DecimalDigits(d)
    ensures UnsignedDecimalLiteral(d)
  {
    forall i | 0 <= i < |d| ensures d[i] !in "eE" && d[i] !in "." && IsDigitIn(d[i], 10) {
      assert '0' <= d[i] <= '9';
    }
    IndexOfAnyAbsent(d, "eE");
    IndexOfAnyAbsent(d, ".");
    assert d[..|d|] == d;
    assert Digits(d, 10);
    assert Mantissa(d);
  }

  lemma {:induction false} IndexOfAnyAbsent(s: string, cs: string)
    requires forall i :: 0 <= i < |s| ==> s[i] !in cs
    ensures IndexOfAny(s, cs) == |s|
  {
    if s != [] {
      IndexOfAnyAbsent(s[1..], cs);
    }
  }

  lemma {:induction false} BlankTrimsToEmpty(s: string)
    requires forall i :: 0 <= i < |s| ==> IsSpace(s[i])
    ensures TrimStart(s) == [] && Trim(s) == []
  {
    if s != [] {
      BlankTrimsToEmpty(s[1..]);
    }
  }
}
