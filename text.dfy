/**
 * The string operations of the .NET base library that the bot relies on, written out on
 * `seq<char>`: white-space tests, `Trim`, ordinal prefix tests, case-insensitive equality,
 * `Split(char)` / `Join(char, ...)`, `Replace(x, "")`, `int.ToString()` and `int.Parse`.
 */
module Text {
  import opened Options

  /** `char.IsWhiteSpace`: the Unicode white-space characters. */
  predicate IsWhiteSpace(c: char)
  {
    c == ' ' || ('\t' <= c <= '\r') || c == '\U{0085}' || c == '\U{00A0}' || c == '\U{1680}'
    || ('\U{2000}' <= c <= '\U{200A}') || c == '\U{2028}' || c == '\U{2029}'
    || c == '\U{202F}' || c == '\U{205F}' || c == '\U{3000}'
  }

  /** The white space `int.Parse` accepts around a number (`NumberStyles.Integer`). */
  predicate IsNumberWhite(c: char)
  {
    c == ' ' || ('\t' <= c <= '\r')
  }

  /** `string.IsNullOrWhiteSpace` on a non-null string. */
  predicate IsBlank(s: string)
  {
    forall i :: 0 <= i < |s| ==> IsWhiteSpace(s[i])
  }

  /** `string.IsNullOrWhiteSpace` on a nullable string. */
  predicate IsNullOrWhiteSpace(s: Option<string>)
  {
    s.None? || IsBlank(s.value)
  }

  /** `s.StartsWith(p)` compared ordinally. */
  predicate StartsWith(s: string, p: string)
  {
    |p| <= |s| && s[..|p|] == p
  }

  /** Drops the leading characters that satisfy `ws`. */
  function TrimStart(s: string, ws: char -> bool): (r: string)
    ensures |r| <= |s| && r == s[|s| - |r|..]
    ensures forall i :: 0 <= i < |s| - |r| ==> ws(s[i])
    ensures r != [] ==> !ws(r[0])
    decreases |s|
  {
    if s != [] && ws(s[0]) then TrimStart(s[1..], ws) else s
  }

  /** Drops the trailing characters that satisfy `ws`. */
  function TrimEnd(s: string, ws: char -> bool): (r: string)
    ensures |r| <= |s| && r == s[..|r|]
    ensures forall i :: |r| <= i < |s| ==> ws(s[i])
    ensures r != [] ==> !ws(r[|r| - 1])
    decreases |s|
  {
    if s != [] && ws(s[|s| - 1]) then TrimEnd(s[..|s| - 1], ws) else s
  }

  /** `s.Trim()`. */
  function Trim(s: string): (r: string)
    ensures |r| <= |s| && Trimmed(r)
  {
    TrimEnd(TrimStart(s, IsWhiteSpace), IsWhiteSpace)
  }

  /** No white space at either end. */
  predicate Trimmed(s: string)
  {
    s != [] ==> !IsWhiteSpace(s[0]) && !IsWhiteSpace(s[|s| - 1])
  }

  /** A string with no white space at either end is its own trim. */
  lemma TrimOfTrimmed(s: string)
    requires Trimmed(s)
    ensures Trim(s) == s
  {
  }

  /** `r` occurs in `s` at offset `i`, with only white space before and after it. */
  predicate BlankAround(s: string, r: string, i: nat)
  {
    i + |r| <= |s| && r == s[i..i + |r|] && IsBlank(s[..i]) && IsBlank(s[i + |r|..])
  }

  /**
   * `Trim` keeps a middle piece of the string and drops only white space around it: the
   * piece starts where the leading white space ends, and only white space follows it.
   */
  lemma TrimDropsOnlyWhiteSpace(s: string)
    ensures BlankAround(s, Trim(s), |s| - |TrimStart(s, IsWhiteSpace)|)
  {
    TrimPieces(s, Trim(s), |s| - |TrimStart(s, IsWhiteSpace)|);
  }

  /** The pieces of `TrimDropsOnlyWhiteSpace`, at the split point `TrimStart` leaves. */
  lemma TrimPieces(s: string, r: string, i: nat)
    requires r == Trim(s) && i == |s| - |TrimStart(s, IsWhiteSpace)|
    ensures BlankAround(s, r, i)
  {
    var a := TrimStart(s, IsWhiteSpace);
    assert r == TrimEnd(a, IsWhiteSpace);
    LeadingBlank(s);
    TrailingBlank(a);
    InfixBetweenBlanks(s, a, r, i);
  }

  /** A prefix `r` of the suffix `a` of `s`, with blanks around it, is an infix between blanks. */
  lemma InfixBetweenBlanks(s: string, a: string, r: string, i: nat)
    requires i <= |s| && a == s[i..] && |r| <= |a| && r == a[..|r|]
    requires IsBlank(s[..i]) && IsBlank(a[|r|..])
    ensures BlankAround(s, r, i)
  {
    assert a[|r|..] == s[i + |r|..];
  }

  /** What `TrimStart` drops is white space. */
  lemma LeadingBlank(s: string)
    ensures IsBlank(s[..|s| - |TrimStart(s, IsWhiteSpace)|])
  {
    var h := s[..|s| - |TrimStart(s, IsWhiteSpace)|];
    forall j | 0 <= j < |h| ensures IsWhiteSpace(h[j]) { assert h[j] == s[j]; }
  }

  /** What `TrimEnd` drops is white space. */
  lemma TrailingBlank(a: string)
    ensures IsBlank(a[|TrimEnd(a, IsWhiteSpace)|..])
  {
    var r := TrimEnd(a, IsWhiteSpace);
    var t := a[|r|..];
    forall j | 0 <= j < |t| ensures IsWhiteSpace(t[j]) { assert t[j] == a[|r| + j]; }
  }

  /** Trimming twice trims no more than once. */
  lemma TrimIdempotent(s: string)
    ensures Trim(Trim(s)) == Trim(s)
  {
    TrimOfTrimmed(Trim(s));
  }

  /** The case mapping used for case-insensitive comparison: Latin and basic Cyrillic letters. */
  function FoldChar(c: char): char
  {
    if 'A' <= c <= 'Z' then (c as int + 32) as char
    else if '\U{0410}' <= c <= '\U{042F}' then (c as int + 32) as char
    else if c == '\U{0401}' then '\U{0451}'
    else c
  }

  /** `s.ToLower()`. */
  function ToLower(s: string): (r: string)
    ensures |r| == |s|
    ensures forall i :: 0 <= i < |r| ==> FoldChar(r[i]) == r[i]
  {
    seq(|s|, i requires 0 <= i < |s| => FoldChar(s[i]))
  }

  /** Folding a folded character changes nothing. */
  lemma FoldCharIdempotent(c: char)
    ensures FoldChar(FoldChar(c)) == FoldChar(c)
  {
  }

  /** Lower-casing a lower-cased string changes nothing. */
  lemma ToLowerIdempotent(s: string)
    ensures ToLower(ToLower(s)) == ToLower(s)
  {
    forall i | 0 <= i < |s|
      ensures ToLower(ToLower(s))[i] == ToLower(s)[i]
    {
      FoldCharIdempotent(s[i]);
    }
  }

  /** A string equals its own lower-cased form when case is ignored. */
  lemma LowerEqualsIgnoreCase(s: string)
    ensures EqualsIgnoreCase(ToLower(s), s)
  {
    ToLowerIdempotent(s);
  }

  /** `string.Equals(a, b, StringComparison.OrdinalIgnoreCase)`. */
  predicate EqualsIgnoreCase(a: string, b: string)
  {
    ToLower(a) == ToLower(b)
  }

  /** `s.StartsWith(p, StringComparison.OrdinalIgnoreCase)`. */
  predicate StartsWithIgnoreCase(s: string, p: string)
  {
    |p| <= |s| && EqualsIgnoreCase(s[..|p|], p)
  }

  // ---------------------------------------------------------------------------------------
  // Split and Join

  /** `s.Split(d)`: the maximal runs between delimiters, always at least one part. */
  function Split(s: string, d: char): (parts: seq<string>)
    ensures |parts| >= 1
    ensures forall i :: 0 <= i < |parts| ==> d !in parts[i]
    decreases |s|
  {
    if s == [] then [[]]
    else
      var rest := Split(s[1..], d);
      if s[0] == d then [[]] + rest else [[s[0]] + rest[0]] + rest[1..]
  }

  /** `string.Join(d, parts)`. */
  function Join(d: char, parts: seq<string>): string
  {
    if |parts| == 0 then []
    else if |parts| == 1 then parts[0]
    else parts[0] + [d] + Join(d, parts[1..])
  }

  /** Joining the parts of a split restores the string. */
  lemma {:induction false} JoinSplit(s: string, d: char)
    ensures Join(d, Split(s, d)) == s
    decreases |s|
  {
    if s != [] {
      var rest := Split(s[1..], d);
      JoinSplit(s[1..], d);
      if s[0] == d {
        assert Split(s, d) == [[]] + rest;
        assert Join(d, [[]] + rest) == [] + [d] + Join(d, rest);
      } else {
        var parts := Split(s, d);
        assert parts == [[s[0]] + rest[0]] + rest[1..];
        if |rest| == 1 {
          assert Join(d, parts) == [s[0]] + rest[0];
        } else {
          assert Join(d, rest) == rest[0] + [d] + Join(d, rest[1..]);
          assert Join(d, parts) == [s[0]] + rest[0] + [d] + Join(d, rest[1..]);
        }
      }
    }
  }

  /** A string without the delimiter splits into itself. */
  lemma {:induction false} SplitWithoutDelimiter(s: string, d: char)
    requires d !in s
    ensures Split(s, d) == [s]
    decreases |s|
  {
    if s != [] {
      assert d !in s[1..];
      SplitWithoutDelimiter(s[1..], d);
      assert [s[0]] + s[1..] == s;
    }
  }

  /** Splitting `a + [d] + b`, where `a` has no delimiter, yields `a` and the parts of `b`. */
  lemma {:induction false} SplitAfterField(a: string, d: char, b: string)
    requires d !in a
    ensures Split(a + [d] + b, d) == [a] + Split(b, d)
    decreases |a|
  {
    if a == [] {
      assert a + [d] + b == [d] + b;
      assert ([d] + b)[1..] == b;
    } else {
      assert (a + [d] + b)[1..] == a[1..] + [d] + b;
      assert d !in a[1..];
      SplitAfterField(a[1..], d, b);
      assert [a[0]] + a[1..] == a;
    }
  }

  // ---------------------------------------------------------------------------------------
  // Replace(p, "")

  /** `s.Replace(p, "")`: removes the occurrences of `p` found scanning left to right. */
  function RemoveAll(s: string, p: string): (r: string)
    requires p != []
    ensures |r| <= |s|
    decreases |s|
  {
    if |s| < |p| then s
    else if s[..|p|] == p then RemoveAll(s[|p|..], p)
    else [s[0]] + RemoveAll(s[1..], p)
  }

  /** `p` occurs in `s` at position `i`. */
  predicate OccursAt(s: string, p: string, i: int)
  {
    0 <= i && i + |p| <= |s| && s[i..i + |p|] == p
  }

  /** Removing a pattern that does not occur leaves the string unchanged. */
  lemma {:induction false} RemoveAbsent(s: string, p: string)
    requires p != []
    requires forall i :: !OccursAt(s, p, i)
    ensures RemoveAll(s, p) == s
    decreases |s|
  {
    if |s| >= |p| {
      assert !OccursAt(s, p, 0);
      forall i ensures !OccursAt(s[1..], p, i) {
        if OccursAt(s[1..], p, i) {
          assert s[1..][i..i + |p|] == s[i + 1..i + 1 + |p|];
          assert OccursAt(s, p, i + 1);
        }
      }
      RemoveAbsent(s[1..], p);
    }
  }

  /** Removing a pattern from `p + s` where `p` is absent from `s` yields `s`. */
  lemma RemovePrefixOnly(p: string, s: string)
    requires p != []
    requires forall i :: !OccursAt(s, p, i)
    ensures RemoveAll(p + s, p) == s
  {
    assert (p + s)[..|p|] == p;
    assert (p + s)[|p|..] == s;
    RemoveAbsent(s, p);
  }

  // ---------------------------------------------------------------------------------------
  // Decimal integers

  predicate IsDigit(c: char)
  {
    '0' <= c <= '9'
  }

  predicate AllDigits(s: string)
  {
    forall i :: 0 <= i < |s| ==> IsDigit(s[i])
  }

  /** The value of a string of decimal digits. */
  function DigitsValue(s: string): nat
    requires AllDigits(s)
  {
    if s == [] then 0 else DigitsValue(s[..|s| - 1]) * 10 + (s[|s| - 1] as int - '0' as int)
  }

  function DigitChar(d: nat): (c: char)
    requires d < 10
    ensures IsDigit(c) && c as int - '0' as int == d
  {
    ('0' as int + d) as char
  }

  /** `n.ToString()` for a natural number: its shortest decimal form. */
  function NatToString(n: nat): (r: string)
    ensures r != [] && AllDigits(r)
    ensures r[0] == '0' ==> n == 0
    decreases n
  {
    if n < 10 then [DigitChar(n)] else NatToString(n / 10) + [DigitChar(n % 10)]
  }

  /** `n.ToString()` (invariant culture): a minus sign before the digits of a negative number. */
  function IntToString(n: int): (r: string)
    ensures r != []
    ensures r[0] == '-' <==> n < 0
  {
    if n < 0 then "-" + NatToString(-n) else NatToString(n)
  }

  /** The digits of `n` read back as `n`. */
  lemma {:induction false} NatToStringValue(n: nat)
    ensures DigitsValue(NatToString(n)) == n
    decreases n
  {
    if n >= 10 {
      NatToStringValue(n / 10);
      var r := NatToString(n);
      assert r[..|r| - 1] == NatToString(n / 10);
    }
  }

  /** The decimal form of a number contains neither white space nor an underscore. */
  lemma IntToStringChars(n: int)
    ensures forall i :: 0 <= i < |IntToString(n)| ==>
      IntToString(n)[i] == '-' || IsDigit(IntToString(n)[i])
  {
  }

  /** The range of a C# `int`. */
  predicate InInt32(v: int)
  {
    -0x8000_0000 <= v < 0x8000_0000
  }

  /**
   * `int.Parse(s)` with `NumberStyles.Integer`: optional surrounding white space, an optional
   * sign, at least one digit, and a value in range. `None` is the `FormatException` or
   * `OverflowException` the call throws.
   */
  function ParseInt32(s: string): (r: Option<int>)
    ensures r.Some? ==> InInt32(r.value)
  {
    var t := TrimEnd(TrimStart(s, IsNumberWhite), IsNumberWhite);
    if t == [] then None
    else
      var body := if t[0] == '-' || t[0] == '+' then t[1..] else t;
      if body == [] || !AllDigits(body) then None
      else
        var mag: int := DigitsValue(body);
        var v := if t[0] == '-' then -mag else mag;
        if InInt32(v) then Some(v) else None
  }

  /** Trimming number white space leaves a string that starts and ends with a non-white character unchanged. */
  lemma NumberHasNoWhite(s: string)
    requires s != [] && !IsNumberWhite(s[0]) && !IsNumberWhite(s[|s| - 1])
    ensures TrimEnd(TrimStart(s, IsNumberWhite), IsNumberWhite) == s
  {
    assert TrimStart(s, IsNumberWhite) == s;
  }

  /** `int.Parse(n.ToString()) == n` for every C# `int`. */
  lemma ParseIntToString(n: int)
    requires InInt32(n)
    ensures ParseInt32(IntToString(n)) == Some(n)
  {
    var s := IntToString(n);
    SignAndDigits(n);
    NumberHasNoWhite(s);
  }

  /**
   * `n.ToString()` is a minus sign exactly when `n` is negative, followed by digits whose value
   * is the magnitude of `n`.
   */
  lemma SignAndDigits(n: int)
    ensures var s := IntToString(n);
      s != [] && IsDigit(s[|s| - 1]) && (s[0] == '-' || IsDigit(s[0]))
      && (n < 0 ==> s[0] == '-' && s[1..] != [] && AllDigits(s[1..]) && DigitsValue(s[1..]) == -n)
      && (n >= 0 ==> IsDigit(s[0]) && AllDigits(s) && DigitsValue(s) == n)
  {
    var s := IntToString(n);
    if n < 0 {
      var digits := NatToString(-n);
      assert s == "-" + digits && s[1..] == digits;
      NatToStringValue(-n);
    } else {
      NatToStringValue(n);
    }
  }
}
