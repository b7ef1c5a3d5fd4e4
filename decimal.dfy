/**
 * Decimal text as Go's `strconv.Itoa`, `%d` and `%02d` produce it, a parser that reads it back,
 * splitting on a separator character and `strings.TrimRight` with a one-character cut set.
 */
module Decimal {
  import opened Wrappers

  predicate IsDigit(c: char)
  {
    '0' <= c <= '9'
  }

  predicate AllDigits(s: string)
  {
    forall i :: 0 <= i < |s| ==> IsDigit(s[i])
  }

  /** A non-empty run of decimal digits. */
  predicate IsNumeral(s: string)
  {
    |s| > 0 && AllDigits(s)
  }

  /** `strconv.Itoa` and `%d` print no leading zero: a numeral that starts with '0' is "0" itself. */
  predicate Unpadded(a: string)
  {
    IsNumeral(a) && (a[0] == '0' ==> a == "0")
  }

  /** The text `%d` prints for an integer: an unpadded numeral, or '-' and an unpadded numeral other than "0". */
  predicate IntText(t: string)
  {
    Unpadded(t) || (|t| >= 2 && t[0] == '-' && Unpadded(t[1..]) && t[1..] != "0")
  }

  function DigitChar(d: nat): (c: char)
    requires d < 10
    ensures IsDigit(c) && DigitValue(c) == d
  {
    ('0' as int + d) as char
  }

  function DigitValue(c: char): nat
    requires IsDigit(c)
  {
    c as int - '0' as int
  }

  /** The number a run of digits denotes (leading zeros allowed, as in "07"). */
  function ValueOf(s: string): nat
    requires AllDigits(s)
  {
    if s == [] then 0 else ValueOf(s[..|s| - 1]) * 10 + DigitValue(s[|s| - 1])
  }

  /** `strconv.Itoa(n)` / `fmt.Sprintf("%d", n)` for a non-negative n. */
  function NatToString(n: nat): (s: string)
    ensures IsNumeral(s) && ValueOf(s) == n
    ensures Unpadded(s)
    ensures |s| == 1 <==> n < 10
    ensures n < 100 ==> |s| <= 2
    decreases n
  {
    if n < 10 then [DigitChar(n)]
    else
      var prefix := NatToString(n / 10);
      var s := prefix + [DigitChar(n % 10)];
      assert s[..|s| - 1] == prefix;
      s
  }

  /** A zero in front of a numeral does not change its value. */
  lemma {:induction false} ValueOfLeadingZero(t: string)
    requires AllDigits(t)
    ensures AllDigits("0" + t) && ValueOf("0" + t) == ValueOf(t)
    decreases |t|
  {
    if t != [] {
      var u := t[..|t| - 1];
      assert ("0" + t)[..|"0" + t| - 1] == "0" + u;
      ValueOfLeadingZero(u);
    }
  }

  /** `fmt.Sprintf("%02d", n)`: at least two digits, padded with a leading zero. */
  function Pad2(n: nat): (s: string)
    ensures IsNumeral(s) && |s| >= 2 && ValueOf(s) == n
    ensures n < 100 ==> |s| == 2
  {
    if n < 10 then
      ValueOfLeadingZero(NatToString(n));
      "0" + NatToString(n)
    else
      NatToString(n)
  }

  /** `fmt.Sprintf("%d", i)` for a signed integer. */
  function IntToString(i: int): (s: string)
    ensures ParseInt(s) == Some(i)
    ensures IntText(s)
  {
    if i < 0 then
      var t := NatToString(-i);
      assert ("-" + t)[1..] == t;
      assert t != "0" by {
        assert ValueOf("0") == 0;
      }
      "-" + t
    else
      NatToString(i)
  }

  /** Reads an optionally signed decimal integer. */
  function ParseInt(s: string): Option<int>
  {
    if |s| > 1 && s[0] == '-' && IsNumeral(s[1..]) then Some(-(ValueOf(s[1..]) as int))
    else if IsNumeral(s) then Some(ValueOf(s))
    else None
  }

  /** `r` is a numeral of value `n` followed by the suffix `unit`, as `fmt.Sprintf("%d<unit>", n)` prints. */
  predicate ReadsAs(r: string, unit: string, n: int)
  {
    && |r| > |unit|
    && r[|r| - |unit|..] == unit
    && ParseInt(r[..|r| - |unit|]) == Some(n)
    && IntText(r[..|r| - |unit|])
  }

  /** A decimal integer followed by a suffix reads back as that integer with that suffix. */
  lemma {:induction false} IntWithUnit(i: int, unit: string)
    ensures ReadsAs(IntToString(i) + unit, unit, i)
  {
    var t := IntToString(i);
    assert (t + unit)[..|t|] == t;
    assert (t + unit)[|t|..] == unit;
  }

  /** Cuts `s` at every occurrence of `sep`, as Go's `strings.Split(s, string(sep))`. */
  function Split(s: string, sep: char): (parts: seq<string>)
    ensures |parts| >= 1
    decreases |s|
  {
    if s == [] then [""]
    else
      var rest := Split(s[1..], sep);
      if s[0] == sep then [""] + rest else [[s[0]] + rest[0]] + rest[1..]
  }

  /** A text without the separator is one field. */
  lemma {:induction false} SplitNoSeparator(a: string, sep: char)
    requires sep !in a
    ensures Split(a, sep) == [a]
    decreases |a|
  {
    if a != [] {
      assert a[0] != sep;
      SplitNoSeparator(a[1..], sep);
      assert [a[0]] + a[1..] == a;
    }
  }

  /** A field without the separator, then the separator, then the rest: the field comes off first. */
  lemma {:induction false} SplitAtSeparator(a: string, sep: char, b: string)
    requires sep !in a
    ensures Split(a + [sep] + b, sep) == [a] + Split(b, sep)
    decreases |a|
  {
    var s := a + [sep] + b;
    if a == [] {
      assert s[0] == sep && s[1..] == b;
    } else {
      assert s[0] == a[0] && s[0] != sep;
      assert s[1..] == a[1..] + [sep] + b;
      SplitAtSeparator(a[1..], sep, b);
      assert [a[0]] + a[1..] == a;
    }
  }

  /** The fields joined with the separator between them: `strings.Join(parts, string(sep))`. */
  function Join(parts: seq<string>, sep: char): string
    requires |parts| >= 1
    decreases |parts|
  {
    if |parts| == 1 then parts[0] else parts[0] + [sep] + Join(parts[1..], sep)
  }

  /** Splitting undoes joining when no field contains the separator. */
  lemma {:induction false} SplitJoin(parts: seq<string>, sep: char)
    requires |parts| >= 1
    requires forall i :: 0 <= i < |parts| ==> sep !in parts[i]
    ensures Split(Join(parts, sep), sep) == parts
    decreases |parts|
  {
    if |parts| == 1 {
      SplitNoSeparator(parts[0], sep);
    } else {
      SplitJoin(parts[1..], sep);
      SplitAtSeparator(parts[0], sep, Join(parts[1..], sep));
      assert [parts[0]] + parts[1..] == parts;
    }
  }

  /** Joining two, three or four fields spelled out. */
  lemma {:induction false} JoinSmall(a: string, b: string, c: string, d: string, sep: char)
    ensures Join([a], sep) == a
    ensures Join([a, b], sep) == a + [sep] + b
    ensures Join([a, b, c], sep) == a + [sep] + b + [sep] + c
    ensures Join([a, b, c, d], sep) == a + [sep] + b + [sep] + c + [sep] + d
  {
    assert [a, b][1..] == [b];
    assert [a, b, c][1..] == [b, c];
    assert [a, b, c, d][1..] == [b, c, d];
    assert [b, c, d][1..] == [c, d];
    calc {
      Join([a, b, c], sep);
      a + [sep] + Join([b, c], sep);
      a + [sep] + (b + [sep] + c);
      a + [sep] + b + [sep] + c;
    }
    calc {
      Join([a, b, c, d], sep);
      a + [sep] + Join([b, c, d], sep);
      a + [sep] + (b + [sep] + Join([c, d], sep));
      a + [sep] + (b + [sep] + (c + [sep] + d));
      a + [sep] + b + [sep] + c + [sep] + d;
    }
  }

  /** A separator that is not a digit does not occur in a run of digits. */
  lemma {:induction false} NoSeparatorInDigits(a: string, sep: char)
    requires AllDigits(a) && !IsDigit(sep)
    ensures sep !in a
  {
    forall i | 0 <= i < |a| ensures a[i] != sep { }
  }

  /** Go's `strings.TrimRight(s, string(c))`: drops every trailing `c`, and nothing else. */
  function TrimRight(s: string, c: char): (r: string)
    ensures r <= s
    ensures forall i :: |r| <= i < |s| ==> s[i] == c
    ensures r == [] || r[|r| - 1] != c
    decreases |s|
  {
    if s != [] && s[|s| - 1] == c then TrimRight(s[..|s| - 1], c) else s
  }

  /** The number of occurrences of `c` in `s`. */
  function Count(s: string, c: char): nat
  {
    if s == [] then 0 else Count(s[..|s| - 1], c) + (if s[|s| - 1] == c then 1 else 0)
  }

  /** `c` occurs in a prefix of `s` at most as often as in `s`, and not at all when its count is 0. */
  lemma {:induction false} CountPrefix(s: string, c: char, k: nat)
    requires k <= |s|
    ensures Count(s[..k], c) <= Count(s, c)
    ensures Count(s, c) == Count(s[..k], c) + Count(s[k..], c)
    decreases |s| - k
  {
    if k < |s| {
      CountPrefix(s, c, k + 1);
      assert s[..k + 1][..k] == s[..k];
      var t := s[k..];
      assert t[..|t| - 1] == s[k..|s| - 1];
      CountSuffixStep(s, c, k);
    } else {
      assert s[..k] == s;
      assert s[k..] == [];
    }
  }

  /** Splitting the first character off a suffix. */
  lemma {:induction false} CountSuffixStep(s: string, c: char, k: nat)
    requires k < |s|
    ensures Count(s[k..], c) == (if s[k] == c then 1 else 0) + Count(s[k + 1..], c)
    decreases |s| - k
  {
    if k + 1 == |s| {
      assert s[k..][..0] == [];
      assert s[k + 1..] == [];
    } else {
      var t := s[k..];
      assert t[..|t| - 1] == s[k..|s| - 1];
      var u := s[..|s| - 1];
      CountSuffixStep(u, c, k);
      assert u[k..] == s[k..|s| - 1];
      assert u[k + 1..] == s[k + 1..|s| - 1];
      var v := s[k + 1..];
      assert v[..|v| - 1] == s[k + 1..|s| - 1];
    }
  }

  /** A count of zero means absence. */
  lemma {:induction false} CountZero(s: string, c: char)
    ensures Count(s, c) == 0 <==> c !in s
    decreases |s|
  {
    if s != [] {
      CountZero(s[..|s| - 1], c);
      assert s == s[..|s| - 1] + [s[|s| - 1]];
    }
  }

  /**
   * The text `fmt.Sprintf("%.Nf", x)` gives for a non-negative x and N >= 1: digits, exactly one
   * '.', a digit at each end.
   */
  predicate IsFixedPoint(t: string)
  {
    && |t| >= 3
    && IsDigit(t[0])
    && IsDigit(t[|t| - 1])
    && (forall i :: 0 <= i < |t| ==> IsDigit(t[i]) || t[i] == '.')
    && Count(t, '.') == 1
  }

  /** The km rendering's clean-up: trailing zeros of the fraction, then a bare trailing '.', go. */
  function TrimFraction(t: string): string
  {
    TrimRight(TrimRight(t, '0'), '.')
  }

  /** Trailing characters whose removal keeps a fixed-point value: zeros, or '.' and zeros. */
  predicate Insignificant(z: string)
  {
    (forall i :: 0 <= i < |z| ==> z[i] == '0')
    || (|z| > 0 && z[0] == '.' && forall i :: 1 <= i < |z| ==> z[i] == '0')
  }

  /**
   * Trimming a fixed-point text leaves a non-empty prefix of it that does not end in '.', whose
   * last character is a nonzero digit whenever a '.' remains, and what is cut off is insignificant.
   */
  lemma {:induction false} TrimFractionShape(t: string)
    requires IsFixedPoint(t)
    ensures var r := TrimFraction(t);
      && r <= t && |r| > 0
      && r[|r| - 1] != '.'
      && IsDigit(r[|r| - 1])
      && ('.' in r ==> '1' <= r[|r| - 1] <= '9')
      && Insignificant(t[|r|..])
  {
    var u := TrimRight(t, '0');
    var r := TrimRight(u, '.');
    CountPrefix(t, '.', |u|);
    assert t[..|u|] == u;
    // The only '.' of t survives the first trim, since that trim removes zeros only.
    assert Count(t[|u|..], '.') == 0 by {
      CountZero(t[|u|..], '.');
    }
    assert '.' in u by {
      CountZero(u, '.');
    }
    assert |u| > 0;
    if u[|u| - 1] == '.' {
      TrimFractionAtPoint(t, u);
    } else {
      assert r == u;
      assert u[|u| - 1] == t[|u| - 1];
      assert '1' <= r[|r| - 1] <= '9';
    }
  }

  /** When only zeros follow the '.', the second trim takes the '.' and stops at the integer digits. */
  lemma {:induction false} TrimFractionAtPoint(t: string, u: string)
    requires IsFixedPoint(t) && u == TrimRight(t, '0')
    requires |u| > 0 && u[|u| - 1] == '.'
    requires Count(u, '.') == 1
    ensures var r := TrimRight(u, '.');
      && r == u[..|u| - 1] && |r| > 0 && '.' !in r && IsDigit(r[|r| - 1])
      && t[|r|..][0] == '.'
  {
    var v := u[..|u| - 1];
    assert u[0] == t[0];
    assert |u| >= 2;
    assert u[|u| - 2] == t[|u| - 2];
    CountPrefix(u, '.', |u| - 1);
    assert u[|u| - 1..] == ['.'];
    assert Count(['.'], '.') == 1 by {
      assert ['.'][..0] == [];
    }
    assert Count(v, '.') == 0;
    CountZero(v, '.');
    assert u[|u| - 2] != '.';
    assert TrimRight(v, '.') == v;
  }
}
