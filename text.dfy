/** String operations of the .NET runtime that the plugins rely on:
    `String.Replace(string, string)`, `Int32.ToString()`, `UInt64.ToString()`
    and `UInt64.Parse(string)`. Strings are `seq<char>`, a sequence of
    Unicode scalar values; comparisons are ordinal. */
module Text {

  datatype Option<+T> = None | Some(value: T)

  /** The range of a C# `ulong`. */
  const ULongMax: nat := 0xFFFF_FFFF_FFFF_FFFF
  type ULong = n: nat | n <= ULongMax

  // ---------------------------------------------------------------------
  // String.Replace
  // ---------------------------------------------------------------------

  /** `pat` occurs in `s` starting at index `i`. */
  predicate OccursAt(s: string, pat: string, i: int)
  {
    0 <= i && i + |pat| <= |s| && s[i..i + |pat|] == pat
  }

  predicate Contains(s: string, pat: string)
  {
    exists i :: 0 <= i <= |s| && OccursAt(s, pat, i)
  }

  /** `s.Replace(pat, rep)`: scans `s` left to right, replaces every
      non-overlapping ordinal occurrence of `pat` by `rep` and never rescans
      the text it has inserted. .NET refuses an empty `pat`. */
  function Replace(s: string, pat: string, rep: string): string
    requires pat != []
    decreases |s|
  {
    if |s| < |pat| then s
    else if s[..|pat|] == pat then rep + Replace(s[|pat|..], pat, rep)
    else [s[0]] + Replace(s[1..], pat, rep)
  }

  /** Dropping the first character moves every occurrence one place left. */
  lemma OccursTail(s: string, pat: string, i: nat)
    requires s != []
    ensures OccursAt(s[1..], pat, i) <==> OccursAt(s, pat, i + 1)
  {
    if i + 1 + |pat| <= |s| {
      assert s[1..][i..i + |pat|] == s[i + 1..i + 1 + |pat|];
    }
  }

  /** A prefix `a` in which no occurrence of `pat` starts is copied as it is. */
  lemma {:induction false} ReplaceSkip(a: string, t: string, pat: string, rep: string)
    requires pat != []
    requires forall i :: 0 <= i < |a| ==> !OccursAt(a + t, pat, i)
    ensures Replace(a + t, pat, rep) == a + Replace(t, pat, rep)
    decreases |a|
  {
    if a == [] {
      assert a + t == t;
    } else {
      var s := a + t;
      assert !OccursAt(s, pat, 0);
      assert s[1..] == a[1..] + t;
      forall i | 0 <= i < |a| - 1
        ensures !OccursAt(a[1..] + t, pat, i)
      {
        OccursTail(s, pat, i);
        assert !OccursAt(s, pat, i + 1);
      }
      ReplaceSkip(a[1..], t, pat, rep);
      if |s| < |pat| {
        assert Replace(t, pat, rep) == t;
      } else {
        assert s[..|pat|] != pat;
        assert [a[0]] + (a[1..] + Replace(t, pat, rep)) == a + Replace(t, pat, rep);
      }
    }
  }

  /** A string in which `pat` does not occur is returned unchanged. */
  lemma ReplaceAbsent(s: string, pat: string, rep: string)
    requires pat != []
    requires !Contains(s, pat)
    ensures Replace(s, pat, rep) == s
  {
    assert s + [] == s;
    ReplaceSkip(s, [], pat, rep);
  }

  /** The first occurrence of `pat` is replaced by `rep`; scanning resumes
      after it. */
  lemma ReplaceFirst(a: string, b: string, pat: string, rep: string)
    requires pat != []
    requires forall i :: 0 <= i < |a| ==> !OccursAt(a + pat + b, pat, i)
    ensures Replace(a + pat + b, pat, rep) == a + rep + Replace(b, pat, rep)
  {
    assert a + pat + b == a + (pat + b);
    ReplaceSkip(a, pat + b, pat, rep);
    assert (pat + b)[..|pat|] == pat;
    assert (pat + b)[|pat|..] == b;
  }

  /** Replacing a pattern by itself changes nothing: inserted text is not
      scanned again, so the replacement always terminates. */
  lemma {:induction false} ReplaceIdentity(s: string, pat: string)
    requires pat != []
    ensures Replace(s, pat, pat) == s
    decreases |s|
  {
    if |s| >= |pat| {
      if s[..|pat|] == pat {
        ReplaceIdentity(s[|pat|..], pat);
        assert s == s[..|pat|] + s[|pat|..];
      } else {
        ReplaceIdentity(s[1..], pat);
        assert s == [s[0]] + s[1..];
      }
    }
  }

  /** A pattern that starts with a character absent from `s` does not occur
      in `s`. All placeholders start with an opening brace. */
  lemma AbsentLead(s: string, pat: string)
    requires pat != [] && pat[0] !in s
    ensures !Contains(s, pat)
  {
  }

  // ---------------------------------------------------------------------
  // Decimal numbers
  // ---------------------------------------------------------------------

  predicate IsDigit(c: char)
  {
    '0' <= c <= '9'
  }

  predicate AllDigits(s: string)
  {
    forall i :: 0 <= i < |s| ==> IsDigit(s[i])
  }

  predicate NoDigit(s: string)
  {
    forall i :: 0 <= i < |s| ==> !IsDigit(s[i])
  }

  function DigitChar(d: nat): (c: char)
    requires d < 10
    ensures IsDigit(c)
  {
    (48 + d) as char
  }

  /** `n.ToString()` for a non-negative integer: its shortest decimal form. */
  function DecimalString(n: nat): (r: string)
    ensures r != [] && AllDigits(r)
    ensures r[0] != '0' || n == 0
  {
    if n < 10 then [DigitChar(n)] else DecimalString(n / 10) + [DigitChar(n % 10)]
  }

  /** `i.ToString()` for a C# `int` under the invariant culture. */
  function IntString(i: int): (r: string)
    ensures r != [] && (r[0] == '-' <==> i < 0)
    ensures AllDigits(if i < 0 then r[1..] else r)
  {
    if i < 0 then "-" + DecimalString(-i) else DecimalString(i)
  }

  /** Where `ulong.Parse` is within its input. */
  datatype ScanState =
    | Leading                          // white space so far
    | Signed(negative: bool)           // a sign, no digit yet
    | Digits(negative: bool, value: nat)
    | Trailing(negative: bool, value: nat)
    | Malformed

  /** One character of `NumberStyles.Integer`: `[ws][sign]digits[ws]`. */
  function Next(st: ScanState, c: char): ScanState
  {
    var d := c as int - '0' as int;
    match st
    case Leading =>
      if IsNumberWhite(c) then Leading
      else if c == '+' then Signed(false)
      else if c == '-' then Signed(true)
      else if IsDigit(c) then Digits(false, d)
      else Malformed
    case Signed(neg) =>
      if IsDigit(c) then Digits(neg, d) else Malformed
    case Digits(neg, v) =>
      if IsDigit(c) then Digits(neg, v * 10 + d)
      else if IsNumberWhite(c) then Trailing(neg, v)
      else Malformed
    case Trailing(neg, v) =>
      if IsNumberWhite(c) then Trailing(neg, v) else Malformed
    case Malformed => Malformed
  }

  /** The state after reading `s` from `st`, left to right. */
  function Scan(s: string, st: ScanState): ScanState
    decreases |s|
  {
    if s == [] then st else Scan(s[1..], Next(st, s[0]))
  }

  lemma {:induction false} ScanSnoc(s: string, c: char, st: ScanState)
    ensures Scan(s + [c], st) == Next(Scan(s, st), c)
    decreases |s|
  {
    if s == [] {
      assert [] + [c] == [c];
    } else {
      assert (s + [c])[1..] == s[1..] + [c];
      ScanSnoc(s[1..], c, Next(st, s[0]));
    }
  }

  /** The shortest decimal form of `n` scans as the digits of `n`. */
  lemma {:induction false} DecimalValue(n: nat)
    ensures Scan(DecimalString(n), Leading) == Digits(false, n)
  {
    if n >= 10 {
      ScanSnoc(DecimalString(n / 10), DigitChar(n % 10), Leading);
      DecimalValue(n / 10);
    }
  }

  /** The white space `NumberStyles.Integer` lets stand around a number:
      U+0009 to U+000D and U+0020. */
  predicate IsNumberWhite(c: char)
  {
    c == ' ' || '\t' <= c <= '\r'
  }

  /** `ulong.Parse(s)`: optional white space, an optional sign, at least one
      digit, optional white space. `None` stands for the exception it throws
      (`FormatException` on a malformed string, `OverflowException` on a value
      outside the range of `ulong`, including any negative value but -0). */
  function ParseULong(s: string): Option<ULong>
  {
    match Scan(s, Leading)
    case Digits(neg, v) => InRange(neg, v)
    case Trailing(neg, v) => InRange(neg, v)
    case _ => None
  }

  function InRange(negative: bool, v: nat): Option<ULong>
  {
    if negative then (if v == 0 then Some(0) else None)
    else if v <= ULongMax then Some(v)
    else None
  }

  /** Every `ulong` printed by `ToString()` parses back to itself: a uid the
      plugin reports can be looked up again by `ulong.Parse`. */
  lemma ParseDecimal(n: ULong)
    ensures ParseULong(DecimalString(n)) == Some(n)
  {
    DecimalValue(n);
  }

  /** A string without any decimal digit never parses. */
  lemma ParseNeedsDigit(s: string)
    requires NoDigit(s)
    ensures ParseULong(s) == None
  {
    ScanDigitless(s, Leading);
  }

  /** Without a digit the scan never leaves the states before the digits. */
  lemma {:induction false} ScanDigitless(s: string, st: ScanState)
    requires NoDigit(s) && (st.Leading? || st.Signed? || st.Malformed?)
    ensures Scan(s, st).Leading? || Scan(s, st).Signed? || Scan(s, st).Malformed?
    decreases |s|
  {
    if s != [] {
      assert !IsDigit(s[0]);
      ScanDigitless(s[1..], Next(st, s[0]));
    }
  }
}
