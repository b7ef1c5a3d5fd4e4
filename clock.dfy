/**
 * The integer days/hours/minutes/seconds decomposition that every duration formatter of the
 * program performs, the three text styles it renders, and parsers that read each style back.
 */
module Clock {
  import opened Wrappers
  import opened Decimal

  datatype Reading = Reading(days: nat, hours: nat, minutes: nat, seconds: nat)

  /** The number of seconds a reading stands for. */
  function Seconds(r: Reading): nat
  {
    r.days * 86400 + r.hours * 3600 + r.minutes * 60 + r.seconds
  }

  /** Every sub-unit lies within its bound. */
  predicate Normal(r: Reading)
  {
    r.hours < 24 && r.minutes < 60 && r.seconds < 60
  }

  /** The unique normal reading of `s` seconds. */
  function Decompose(s: nat): (r: Reading)
    ensures Seconds(r) == s && Normal(r)
  {
    DecomposeSum(s);
    Reading(s / 86400, s % 86400 / 3600, s % 3600 / 60, s % 60)
  }

  /** Days, hours within the day, minutes within the hour and seconds add back up to `s`. */
  lemma {:induction false} DecomposeSum(s: nat)
    ensures s / 86400 * 86400 + s % 86400 / 3600 * 3600 + s % 3600 / 60 * 60 + s % 60 == s
    ensures s % 86400 / 3600 < 24 && s % 3600 / 60 < 60
  {
    var rem := s % 86400;
    assert s == s / 86400 * 86400 + rem;
    assert rem == rem / 3600 * 3600 + rem % 3600;
    HourWithinDay(s);
    var h := s % 3600;
    assert h == h / 60 * 60 + h % 60;
    QuotientRemainder(s, 60, s / 3600 * 60 + h / 60, h % 60);
  }

  /** A normal reading is recovered from its number of seconds. */
  lemma {:induction false} DecomposeUnique(r: Reading)
    requires Normal(r)
    ensures Decompose(Seconds(r)) == r
  {
    var s := Seconds(r);
    var low := r.hours * 3600 + r.minutes * 60 + r.seconds;
    var mid := r.minutes * 60 + r.seconds;
    QuotientRemainder(s, 86400, r.days, low);
    QuotientRemainder(low, 3600, r.hours, mid);
    QuotientRemainder(s, 3600, r.days * 24 + r.hours, mid);
    QuotientRemainder(mid, 60, r.minutes, r.seconds);
    QuotientRemainder(s, 60, r.days * 1440 + r.hours * 60 + r.minutes, r.seconds);
  }

  /** Euclidean quotient and remainder are unique, for the three divisors the formatters use. */
  lemma {:induction false} QuotientRemainder(a: nat, k: nat, q: nat, rest: nat)
    requires k == 60 || k == 3600 || k == 86400
    requires a == q * k + rest && rest < k
    ensures a / k == q && a % k == rest
  {
    if k == 60 {
    } else if k == 3600 {
    } else {
    }
  }

  /** Taking the remainder by a day first does not change the remainder by an hour. */
  lemma {:induction false} HourWithinDay(s: nat)
    ensures s % 86400 % 3600 == s % 3600
  {
    var rem := s % 86400;
    QuotientRemainder(s, 86400, s / 86400, rem);
    QuotientRemainder(rem, 3600, rem / 3600, rem % 3600);
    QuotientRemainder(s, 3600, s / 86400 * 24 + rem / 3600, rem % 3600);
  }

  /** How many components a formatter shows: the branch thresholds 60, 3600 and 86400. */
  function Fields(s: nat): nat
  {
    if s < 60 then 1 else if s < 3600 then 2 else if s < 86400 then 3 else 4
  }

  /**
   * The fields of the colon style: one per shown component, every `%02d` field two digits wide,
   * and the leading field printed by `strconv.Itoa` (seconds alone) or `%d` (days) without padding.
   */
  predicate ColonWidths(s: nat, f: seq<string>)
  {
    && |f| == Fields(s)
    && (forall i :: 1 <= i < |f| ==> |f[i]| == 2)
    && (60 <= s < 86400 ==> |f[0]| == 2)
    && (s < 60 || 86400 <= s ==> Unpadded(f[0]))
  }

  /**
   * The tokens of the padded unit style: one per shown component, every `%02d` token two digits
   * and its unit letter, the bare seconds and the `%d` days without padding.
   */
  predicate PaddedWidths(s: nat, k: seq<string>)
  {
    && |k| == Fields(s)
    && (forall i :: 1 <= i < |k| ==> |k[i]| == 3)
    && (60 <= s < 86400 ==> |k[0]| == 3)
    && (s < 60 ==> Unpadded(k[0]))
    && (86400 <= s ==> |k[0]| >= 2 && Unpadded(k[0][..|k[0]| - 1]))
  }

  /** The unit letters of the shown components, most significant first. */
  function ShownUnits(s: nat): (u: string)
    ensures |u| == Fields(s) && u[|u| - 1] == 's'
  {
    if s < 60 then "s" else if s < 3600 then "ms" else if s < 86400 then "hms" else "dhms"
  }

  /** The tokens of the unit style: one per shown component, each a `%d` numeral and its unit letter. */
  predicate UnitWidths(s: nat, k: seq<string>)
  {
    && |k| == Fields(s)
    && forall i :: 0 <= i < |k| ==>
         |k[i]| >= 2 && Unpadded(k[i][..|k[i]| - 1]) && k[i][|k[i]| - 1] == ShownUnits(s)[i]
  }

  /** The components a formatter shows beyond the seconds are exactly the nonzero leading ones. */
  lemma {:induction false} FieldsShowLeadingUnits(s: nat)
    ensures var r := Decompose(s);
      && (Fields(s) == 1 <==> r.days == 0 && r.hours == 0 && r.minutes == 0)
      && (Fields(s) == 2 <==> r.days == 0 && r.hours == 0 && r.minutes > 0)
      && (Fields(s) == 3 <==> r.days == 0 && r.hours > 0)
      && (Fields(s) == 4 <==> r.days > 0)
  {
  }

  // ---------------------------------------------------------------------------------------------
  // "ss", "mm:ss", "hh:mm:ss", "d:hh:mm:ss"

  /** The colon style (`%02d:%02d` and its longer forms), from a number of whole seconds. */
  function ColonText(seconds: nat): string
  {
    if seconds < 60 then
      NatToString(seconds)
    else if seconds < 3600 then
      var minutes := seconds / 60;
      var remainingSeconds := seconds % 60;
      Pad2(minutes) + ":" + Pad2(remainingSeconds)
    else if seconds < 86400 then
      var hours := seconds / 3600;
      var remainingSeconds := seconds % 3600;
      var minutes := remainingSeconds / 60;
      var secs := remainingSeconds % 60;
      Pad2(hours) + ":" + Pad2(minutes) + ":" + Pad2(secs)
    else
      var days := seconds / 86400;
      var remainingSeconds := seconds % 86400;
      var hours := remainingSeconds / 3600;
      var remainingSeconds' := remainingSeconds % 3600;
      var minutes := remainingSeconds' / 60;
      var secs := remainingSeconds' % 60;
      NatToString(days) + ":" + Pad2(hours) + ":" + Pad2(minutes) + ":" + Pad2(secs)
  }

  /** Reads colon-separated numerals, the last one being seconds. */
  function ParseColon(t: string): Option<Reading>
  {
    var f := Split(t, ':');
    if exists i :: 0 <= i < |f| && !IsNumeral(f[i]) then None
    else if |f| == 1 then Some(Reading(0, 0, 0, ValueOf(f[0])))
    else if |f| == 2 then Some(Reading(0, 0, ValueOf(f[0]), ValueOf(f[1])))
    else if |f| == 3 then Some(Reading(0, ValueOf(f[0]), ValueOf(f[1]), ValueOf(f[2])))
    else if |f| == 4 then Some(Reading(ValueOf(f[0]), ValueOf(f[1]), ValueOf(f[2]), ValueOf(f[3])))
    else None
  }

  /** Numerals joined with ':' split back into themselves. */
  lemma {:induction false} ColonFields(parts: seq<string>)
    requires 1 <= |parts|
    requires forall i :: 0 <= i < |parts| ==> IsNumeral(parts[i])
    ensures Split(Join(parts, ':'), ':') == parts
  {
    forall i | 0 <= i < |parts| ensures ':' !in parts[i] {
      NoSeparatorInDigits(parts[i], ':');
    }
    SplitJoin(parts, ':');
  }

  /** Below an hour only minutes and seconds are nonzero. */
  lemma {:induction false} DecomposeMinutes(s: nat)
    requires s < 3600
    ensures Decompose(s) == Reading(0, 0, s / 60, s % 60)
  {
    QuotientRemainder(s, 86400, 0, s);
    QuotientRemainder(s, 3600, 0, s);
  }

  /** Below a day the days are zero. */
  lemma {:induction false} DecomposeHours(s: nat)
    requires s < 86400
    ensures Decompose(s) == Reading(0, s / 3600, s % 3600 / 60, s % 3600 % 60)
  {
    QuotientRemainder(s, 86400, 0, s);
    var m := s % 3600;
    QuotientRemainder(s, 60, s / 3600 * 60 + m / 60, m % 60);
  }

  /** From a day on, hours, minutes and seconds come from the remainder by a day, as the formatters compute them. */
  lemma {:induction false} DecomposeDays(s: nat)
    ensures var rem := s % 86400;
      Decompose(s) == Reading(s / 86400, rem / 3600, rem % 3600 / 60, rem % 3600 % 60)
  {
    HourWithinDay(s);
    var m := s % 3600;
    QuotientRemainder(s, 60, s / 3600 * 60 + m / 60, m % 60);
  }

  lemma {:induction false} ParseColonOne(a: string)
    requires IsNumeral(a)
    ensures Split(a, ':') == [a]
    ensures ParseColon(a) == Some(Reading(0, 0, 0, ValueOf(a)))
  {
    JoinSmall(a, a, a, a, ':');
    ColonFields([a]);
  }

  lemma {:induction false} ParseColonTwo(a: string, b: string)
    requires IsNumeral(a) && IsNumeral(b)
    ensures Split(a + ":" + b, ':') == [a, b]
    ensures ParseColon(a + ":" + b) == Some(Reading(0, 0, ValueOf(a), ValueOf(b)))
  {
    JoinSmall(a, b, b, b, ':');
    ColonFields([a, b]);
    var f := Split(a + ":" + b, ':');
    assert f[0] == a && f[1] == b;
  }

  lemma {:induction false} ParseColonThree(a: string, b: string, c: string)
    requires IsNumeral(a) && IsNumeral(b) && IsNumeral(c)
    ensures Split(a + ":" + b + ":" + c, ':') == [a, b, c]
    ensures ParseColon(a + ":" + b + ":" + c) == Some(Reading(0, ValueOf(a), ValueOf(b), ValueOf(c)))
  {
    JoinSmall(a, b, c, c, ':');
    ColonFields([a, b, c]);
    var f := Split(a + ":" + b + ":" + c, ':');
    assert f[0] == a && f[1] == b && f[2] == c;
  }

  lemma {:induction false} ParseColonFour(a: string, b: string, c: string, d: string)
    requires IsNumeral(a) && IsNumeral(b) && IsNumeral(c) && IsNumeral(d)
    ensures Split(a + ":" + b + ":" + c + ":" + d, ':') == [a, b, c, d]
    ensures ParseColon(a + ":" + b + ":" + c + ":" + d) == Some(Reading(ValueOf(a), ValueOf(b), ValueOf(c), ValueOf(d)))
  {
    JoinSmall(a, b, c, d, ':');
    ColonFields([a, b, c, d]);
    var f := Split(a + ":" + b + ":" + c + ":" + d, ':');
    assert f[0] == a && f[1] == b && f[2] == c && f[3] == d;
  }

  /** The colon text has one field per shown component, padded as printed, and reads back as the decomposition. */
  lemma {:induction false} ColonRoundTrip(s: nat)
    ensures ColonWidths(s, Split(ColonText(s), ':'))
    ensures ParseColon(ColonText(s)) == Some(Decompose(s))
  {
    if s < 60 {
      ColonRoundTripSeconds(s);
    } else if s < 3600 {
      ColonRoundTripMinutes(s);
    } else if s < 86400 {
      ColonRoundTripHours(s);
    } else {
      ColonRoundTripDays(s);
    }
  }

  /** The colon text round trip below a minute: the bare numeral of the seconds. */
  lemma {:induction false} ColonRoundTripSeconds(s: nat)
    requires s < 60
    ensures ColonWidths(s, Split(ColonText(s), ':'))
    ensures ParseColon(ColonText(s)) == Some(Decompose(s))
  {
    var a := NatToString(s);
    assert ColonText(s) == a;
    ParseColonOne(a);
    assert Decompose(s) == Reading(0, 0, 0, s) by {
      DecomposeMinutes(s);
    }
  }

  /** The colon text round trip for minutes and seconds. */
  lemma {:induction false} ColonRoundTripMinutes(s: nat)
    requires 60 <= s < 3600
    ensures ColonWidths(s, Split(ColonText(s), ':'))
    ensures ParseColon(ColonText(s)) == Some(Decompose(s))
  {
    ParseColonTwo(Pad2(s / 60), Pad2(s % 60));
    DecomposeMinutes(s);
  }

  /** The colon text round trip for hours, minutes and seconds. */
  lemma {:induction false} ColonRoundTripHours(s: nat)
    requires 3600 <= s < 86400
    ensures ColonWidths(s, Split(ColonText(s), ':'))
    ensures ParseColon(ColonText(s)) == Some(Decompose(s))
  {
    ParseColonThree(Pad2(s / 3600), Pad2(s % 3600 / 60), Pad2(s % 3600 % 60));
    DecomposeHours(s);
  }

  /** The colon text round trip for a reading with days. */
  lemma {:induction false} ColonRoundTripDays(s: nat)
    requires 86400 <= s
    ensures ColonWidths(s, Split(ColonText(s), ':'))
    ensures ParseColon(ColonText(s)) == Some(Decompose(s))
  {
    var rem := s % 86400;
    ParseColonFour(NatToString(s / 86400), Pad2(rem / 3600), Pad2(rem % 3600 / 60), Pad2(rem % 3600 % 60));
    DecomposeDays(s);
  }

  // ---------------------------------------------------------------------------------------------
  // "5s", "2m 15s", "1h 30m 45s", "2d 5h 30m 15s" and the padded "45", "02m 15s", ...

  /** The unpadded unit style, from a number of whole seconds. */
  function UnitText(seconds: nat): string
  {
    if seconds < 60 then
      NatToString(seconds) + "s"
    else if seconds < 3600 then
      var minutes := seconds / 60;
      var remainingSeconds := seconds % 60;
      NatToString(minutes) + "m " + NatToString(remainingSeconds) + "s"
    else if seconds < 86400 then
      var hours := seconds / 3600;
      var remainingSeconds := seconds % 3600;
      var minutes := remainingSeconds / 60;
      var secs := remainingSeconds % 60;
      NatToString(hours) + "h " + NatToString(minutes) + "m " + NatToString(secs) + "s"
    else
      var days := seconds / 86400;
      var remainingSeconds := seconds % 86400;
      var hours := remainingSeconds / 3600;
      var remainingSeconds' := remainingSeconds % 3600;
      var minutes := remainingSeconds' / 60;
      var secs := remainingSeconds' % 60;
      NatToString(days) + "d " + NatToString(hours) + "h " + NatToString(minutes) + "m " + NatToString(secs) + "s"
  }

  /** The zero-padded unit style (`%02dm %02ds` and its longer forms); bare digits below a minute. */
  function PaddedUnitText(seconds: nat): string
  {
    if seconds < 60 then
      NatToString(seconds)
    else if seconds < 3600 then
      var minutes := seconds / 60;
      var remainingSeconds := seconds % 60;
      Pad2(minutes) + "m " + Pad2(remainingSeconds) + "s"
    else if seconds < 86400 then
      var hours := seconds / 3600;
      var remainingSeconds := seconds % 3600;
      var minutes := remainingSeconds / 60;
      var secs := remainingSeconds % 60;
      Pad2(hours) + "h " + Pad2(minutes) + "m " + Pad2(secs) + "s"
    else
      var days := seconds / 86400;
      var remainingSeconds := seconds % 86400;
      var hours := remainingSeconds / 3600;
      var remainingSeconds' := remainingSeconds % 3600;
      var minutes := remainingSeconds' / 60;
      var secs := remainingSeconds' % 60;
      NatToString(days) + "d " + Pad2(hours) + "h " + Pad2(minutes) + "m " + Pad2(secs) + "s"
  }

  /** The number in a token such as "15s" whose unit letter is `unit`. */
  function UnitValue(token: string, unit: char): Option<nat>
  {
    if |token| >= 2 && token[|token| - 1] == unit && IsNumeral(token[..|token| - 1])
    then Some(ValueOf(token[..|token| - 1]))
    else None
  }

  /** Reads space-separated unit tokens ending in seconds, or a bare numeral of seconds. */
  function ParseUnits(t: string): Option<Reading>
  {
    var k := Split(t, ' ');
    if |k| == 1 && IsNumeral(k[0]) then Some(Reading(0, 0, 0, ValueOf(k[0])))
    else if |k| == 1 then
      match UnitValue(k[0], 's')
      case Some(sec) => Some(Reading(0, 0, 0, sec))
      case None => None
    else if |k| == 2 then
      match (UnitValue(k[0], 'm'), UnitValue(k[1], 's'))
      case (Some(m), Some(sec)) => Some(Reading(0, 0, m, sec))
      case _ => None
    else if |k| == 3 then
      match (UnitValue(k[0], 'h'), UnitValue(k[1], 'm'), UnitValue(k[2], 's'))
      case (Some(h), Some(m), Some(sec)) => Some(Reading(0, h, m, sec))
      case _ => None
    else if |k| == 4 then
      match (UnitValue(k[0], 'd'), UnitValue(k[1], 'h'), UnitValue(k[2], 'm'), UnitValue(k[3], 's'))
      case (Some(d), Some(h), Some(m), Some(sec)) => Some(Reading(d, h, m, sec))
      case _ => None
    else None
  }

  /** A numeral followed by its unit letter is a token without spaces that reads back. */
  lemma {:induction false} UnitToken(a: string, unit: char)
    requires IsNumeral(a) && !IsDigit(unit) && unit != ' '
    ensures ' ' !in a + [unit]
    ensures !IsNumeral(a + [unit])
    ensures UnitValue(a + [unit], unit) == Some(ValueOf(a))
    ensures (a + [unit])[..|a|] == a
  {
    NoSeparatorInDigits(a, ' ');
    assert (a + [unit])[..|a|] == a;
    assert (a + [unit])[|a|] == unit;
  }

  /** Tokens without spaces, joined with ' ', split back into themselves. */
  lemma {:induction false} SpaceFields(parts: seq<string>)
    requires 1 <= |parts|
    requires forall i :: 0 <= i < |parts| ==> ' ' !in parts[i]
    ensures Split(Join(parts, ' '), ' ') == parts
  {
    SplitJoin(parts, ' ');
  }

  lemma {:induction false} ParseUnitsOne(a: string)
    requires IsNumeral(a)
    ensures Split(a + "s", ' ') == [a + "s"]
    ensures ParseUnits(a + "s") == Some(Reading(0, 0, 0, ValueOf(a)))
  {
    UnitToken(a, 's');
    JoinSmall(a + "s", a, a, a, ' ');
    SpaceFields([a + "s"]);
  }

  lemma {:induction false} ParseTokensTwo(x: string, y: string, m: nat, sec: nat)
    requires ' ' !in x && ' ' !in y && !IsNumeral(x)
    requires UnitValue(x, 'm') == Some(m) && UnitValue(y, 's') == Some(sec)
    ensures Split(x + [' '] + y, ' ') == [x, y]
    ensures ParseUnits(x + [' '] + y) == Some(Reading(0, 0, m, sec))
  {
    JoinSmall(x, y, y, y, ' ');
    SpaceFields([x, y]);
  }

  lemma {:induction false} ParseUnitsTwo(a: string, b: string)
    requires IsNumeral(a) && IsNumeral(b)
    ensures Split(a + "m " + b + "s", ' ') == [a + "m", b + "s"]
    ensures ParseUnits(a + "m " + b + "s") == Some(Reading(0, 0, ValueOf(a), ValueOf(b)))
  {
    UnitToken(a, 'm');
    UnitToken(b, 's');
    assert a + "m " + b + "s" == (a + ['m']) + [' '] + (b + ['s']);
    ParseTokensTwo(a + ['m'], b + ['s'], ValueOf(a), ValueOf(b));
  }

  lemma {:induction false} ParseTokensThree(x: string, y: string, z: string, h: nat, m: nat, sec: nat)
    requires ' ' !in x && ' ' !in y && ' ' !in z && !IsNumeral(x)
    requires UnitValue(x, 'h') == Some(h) && UnitValue(y, 'm') == Some(m) && UnitValue(z, 's') == Some(sec)
    ensures Split(x + [' '] + y + [' '] + z, ' ') == [x, y, z]
    ensures ParseUnits(x + [' '] + y + [' '] + z) == Some(Reading(0, h, m, sec))
  {
    JoinSmall(x, y, z, z, ' ');
    SpaceFields([x, y, z]);
  }

  lemma {:induction false} ParseUnitsThree(a: string, b: string, c: string)
    requires IsNumeral(a) && IsNumeral(b) && IsNumeral(c)
    ensures Split(a + "h " + b + "m " + c + "s", ' ') == [a + "h", b + "m", c + "s"]
    ensures ParseUnits(a + "h " + b + "m " + c + "s") == Some(Reading(0, ValueOf(a), ValueOf(b), ValueOf(c)))
  {
    UnitToken(a, 'h');
    UnitToken(b, 'm');
    UnitToken(c, 's');
    assert a + "h " + b + "m " + c + "s" == (a + ['h']) + [' '] + (b + ['m']) + [' '] + (c + ['s']);
    ParseTokensThree(a + ['h'], b + ['m'], c + ['s'], ValueOf(a), ValueOf(b), ValueOf(c));
  }

  lemma {:induction false} ParseTokensFour(w: string, x: string, y: string, z: string, d: nat, h: nat, m: nat, sec: nat)
    requires ' ' !in w && ' ' !in x && ' ' !in y && ' ' !in z && !IsNumeral(w)
    requires UnitValue(w, 'd') == Some(d) && UnitValue(x, 'h') == Some(h)
    requires UnitValue(y, 'm') == Some(m) && UnitValue(z, 's') == Some(sec)
    ensures Split(w + [' '] + x + [' '] + y + [' '] + z, ' ') == [w, x, y, z]
    ensures ParseUnits(w + [' '] + x + [' '] + y + [' '] + z) == Some(Reading(d, h, m, sec))
  {
    JoinSmall(w, x, y, z, ' ');
    SpaceFields([w, x, y, z]);
  }

  lemma {:induction false} UnitsFourText(a: string, b: string, c: string, d: string)
    ensures a + "d " + b + "h " + c + "m " + d + "s" == (a + ['d']) + [' '] + (b + ['h']) + [' '] + (c + ['m']) + [' '] + (d + ['s'])
  {
  }

  lemma {:induction false} ParseUnitsFour(a: string, b: string, c: string, d: string)
    requires IsNumeral(a) && IsNumeral(b) && IsNumeral(c) && IsNumeral(d)
    ensures Split(a + "d " + b + "h " + c + "m " + d + "s", ' ') == [a + "d", b + "h", c + "m", d + "s"]
    ensures ParseUnits(a + "d " + b + "h " + c + "m " + d + "s") == Some(Reading(ValueOf(a), ValueOf(b), ValueOf(c), ValueOf(d)))
  {
    UnitToken(a, 'd');
    UnitToken(b, 'h');
    UnitToken(c, 'm');
    UnitToken(d, 's');
    UnitsFourText(a, b, c, d);
    ParseTokensFour(a + ['d'], b + ['h'], c + ['m'], d + ['s'], ValueOf(a), ValueOf(b), ValueOf(c), ValueOf(d));
  }

  /** Tokens that are each a numeral without leading zero followed by one unit letter. */
  lemma {:induction false} UnitTokens(k: seq<string>, nums: seq<string>, units: string)
    requires |k| == |nums| == |units|
    requires forall i :: 0 <= i < |k| ==> k[i] == nums[i] + [units[i]] && Unpadded(nums[i])
    ensures forall i :: 0 <= i < |k| ==>
              |k[i]| >= 2 && Unpadded(k[i][..|k[i]| - 1]) && k[i][|k[i]| - 1] == units[i]
  {
    forall i | 0 <= i < |k| ensures |k[i]| >= 2 && Unpadded(k[i][..|k[i]| - 1]) && k[i][|k[i]| - 1] == units[i] {
      assert k[i][..|k[i]| - 1] == nums[i];
    }
  }

  /** The unit text has one token per shown component and reads back as the decomposition. */
  lemma {:induction false} UnitRoundTrip(s: nat)
    ensures UnitWidths(s, Split(UnitText(s), ' '))
    ensures ParseUnits(UnitText(s)) == Some(Decompose(s))
  {
    if s < 60 {
      UnitRoundTripSeconds(s);
    } else if s < 3600 {
      UnitRoundTripMinutes(s);
    } else if s < 86400 {
      UnitRoundTripHours(s);
    } else {
      UnitRoundTripDays(s);
    }
  }

  /** The unit text round trip below a minute: one seconds token. */
  lemma {:induction false} UnitRoundTripSeconds(s: nat)
    requires s < 60
    ensures UnitWidths(s, Split(UnitText(s), ' '))
    ensures ParseUnits(UnitText(s)) == Some(Decompose(s))
  {
    var a := NatToString(s);
    assert UnitText(s) == a + "s";
    ParseUnitsOne(a);
    assert Decompose(s) == Reading(0, 0, 0, s) by {
      DecomposeMinutes(s);
    }
  }

  /** The unit text round trip for a reading of minutes and seconds. */
  lemma {:induction false} UnitRoundTripMinutes(s: nat)
    requires 60 <= s < 3600
    ensures UnitWidths(s, Split(UnitText(s), ' '))
    ensures ParseUnits(UnitText(s)) == Some(Decompose(s))
  {
    var a, b := NatToString(s / 60), NatToString(s % 60);
    ParseUnitsTwo(a, b);
    UnitTokens(Split(UnitText(s), ' '), [a, b], "ms");
    DecomposeMinutes(s);
  }

  /** The unit text round trip for a reading of hours, minutes and seconds. */
  lemma {:induction false} UnitRoundTripHours(s: nat)
    requires 3600 <= s < 86400
    ensures UnitWidths(s, Split(UnitText(s), ' '))
    ensures ParseUnits(UnitText(s)) == Some(Decompose(s))
  {
    UnitsThree(s, NatToString(s / 3600), NatToString(s % 3600 / 60), NatToString(s % 3600 % 60));
    DecomposeHours(s);
  }

  /** The unit text round trip for a reading with days. */
  lemma {:induction false} UnitRoundTripDays(s: nat)
    requires 86400 <= s
    ensures UnitWidths(s, Split(UnitText(s), ' '))
    ensures ParseUnits(UnitText(s)) == Some(Decompose(s))
  {
    var rem := s % 86400;
    UnitsFour(s, NatToString(s / 86400), NatToString(rem / 3600), NatToString(rem % 3600 / 60), NatToString(rem % 3600 % 60));
    DecomposeDays(s);
  }

  /** Three unpadded numerals with the units h, m and s: three tokens that read back. */
  lemma {:induction false} UnitsThree(s: nat, a: string, b: string, c: string)
    requires 3600 <= s < 86400
    requires Unpadded(a) && Unpadded(b) && Unpadded(c)
    ensures UnitWidths(s, Split(a + "h " + b + "m " + c + "s", ' '))
    ensures ParseUnits(a + "h " + b + "m " + c + "s") == Some(Reading(0, ValueOf(a), ValueOf(b), ValueOf(c)))
  {
    ParseUnitsThree(a, b, c);
    UnitTokens(Split(a + "h " + b + "m " + c + "s", ' '), [a, b, c], "hms");
  }

  /** Four unpadded numerals with the units d, h, m and s: four tokens that read back. */
  lemma {:induction false} UnitsFour(s: nat, a: string, b: string, c: string, d: string)
    requires 86400 <= s
    requires Unpadded(a) && Unpadded(b) && Unpadded(c) && Unpadded(d)
    ensures UnitWidths(s, Split(a + "d " + b + "h " + c + "m " + d + "s", ' '))
    ensures ParseUnits(a + "d " + b + "h " + c + "m " + d + "s") == Some(Reading(ValueOf(a), ValueOf(b), ValueOf(c), ValueOf(d)))
  {
    ParseUnitsFour(a, b, c, d);
    UnitTokens(Split(a + "d " + b + "h " + c + "m " + d + "s", ' '), [a, b, c, d], "dhms");
  }

  /** The padded text is bare digits exactly below a minute, and otherwise reads back like the unit text. */
  lemma {:induction false} PaddedUnitRoundTrip(s: nat)
    ensures AllDigits(PaddedUnitText(s)) <==> s < 60
    ensures PaddedWidths(s, Split(PaddedUnitText(s), ' '))
    ensures ParseUnits(PaddedUnitText(s)) == Some(Decompose(s))
  {
    if s < 60 {
      PaddedRoundTripSeconds(s);
    } else if s < 3600 {
      PaddedRoundTripMinutes(s);
    } else if s < 86400 {
      PaddedRoundTripHours(s);
    } else {
      PaddedRoundTripDays(s);
    }
  }

  /** The padded text round trip below a minute: the bare numeral of the seconds. */
  lemma {:induction false} PaddedRoundTripSeconds(s: nat)
    requires s < 60
    ensures AllDigits(PaddedUnitText(s))
    ensures PaddedWidths(s, Split(PaddedUnitText(s), ' '))
    ensures ParseUnits(PaddedUnitText(s)) == Some(Decompose(s))
  {
    var t := NatToString(s);
    assert PaddedUnitText(s) == t;
    NoSeparatorInDigits(t, ' ');
    SplitNoSeparator(t, ' ');
    assert ParseUnits(t) == Some(Reading(0, 0, 0, s));
    assert Decompose(s) == Reading(0, 0, 0, s) by {
      DecomposeMinutes(s);
    }
  }

  /** The padded text round trip for a reading of minutes and seconds; the text is not bare digits. */
  lemma {:induction false} PaddedRoundTripMinutes(s: nat)
    requires 60 <= s < 3600
    ensures !AllDigits(PaddedUnitText(s))
    ensures PaddedWidths(s, Split(PaddedUnitText(s), ' '))
    ensures ParseUnits(PaddedUnitText(s)) == Some(Decompose(s))
  {
    ParseUnitsTwo(Pad2(s / 60), Pad2(s % 60));
    DecomposeMinutes(s);
    var t := PaddedUnitText(s);
    assert t[|t| - 1] == 's';
  }

  /** The padded text round trip for a reading of hours, minutes and seconds; the text is not bare digits. */
  lemma {:induction false} PaddedRoundTripHours(s: nat)
    requires 3600 <= s < 86400
    ensures !AllDigits(PaddedUnitText(s))
    ensures PaddedWidths(s, Split(PaddedUnitText(s), ' '))
    ensures ParseUnits(PaddedUnitText(s)) == Some(Decompose(s))
  {
    PaddedThree(s, Pad2(s / 3600), Pad2(s % 3600 / 60), Pad2(s % 3600 % 60));
    DecomposeHours(s);
  }

  /** The padded text round trip for a reading with days; the text is not bare digits. */
  lemma {:induction false} PaddedRoundTripDays(s: nat)
    requires 86400 <= s
    ensures !AllDigits(PaddedUnitText(s))
    ensures PaddedWidths(s, Split(PaddedUnitText(s), ' '))
    ensures ParseUnits(PaddedUnitText(s)) == Some(Decompose(s))
  {
    var rem := s % 86400;
    PaddedFour(s, NatToString(s / 86400), Pad2(rem / 3600), Pad2(rem % 3600 / 60), Pad2(rem % 3600 % 60));
    DecomposeDays(s);
  }

  /** Three two-digit numerals with the units h, m and s: three three-character tokens that read back. */
  lemma {:induction false} PaddedThree(s: nat, a: string, b: string, c: string)
    requires 3600 <= s < 86400
    requires IsNumeral(a) && IsNumeral(b) && IsNumeral(c) && |a| == 2 && |b| == 2 && |c| == 2
    ensures var t := a + "h " + b + "m " + c + "s";
      && !AllDigits(t)
      && PaddedWidths(s, Split(t, ' '))
      && ParseUnits(t) == Some(Reading(0, ValueOf(a), ValueOf(b), ValueOf(c)))
  {
    ParseUnitsThree(a, b, c);
    var t := a + "h " + b + "m " + c + "s";
    assert t[|t| - 1] == 's';
  }

  /** An unpadded numeral of days and three two-digit numerals: four tokens that read back. */
  lemma {:induction false} PaddedFour(s: nat, a: string, b: string, c: string, d: string)
    requires 86400 <= s
    requires Unpadded(a) && IsNumeral(b) && IsNumeral(c) && IsNumeral(d) && |b| == 2 && |c| == 2 && |d| == 2
    ensures var t := a + "d " + b + "h " + c + "m " + d + "s";
      && !AllDigits(t)
      && PaddedWidths(s, Split(t, ' '))
      && ParseUnits(t) == Some(Reading(ValueOf(a), ValueOf(b), ValueOf(c), ValueOf(d)))
  {
    ParseUnitsFour(a, b, c, d);
    UnitToken(a, 'd');
    var t := a + "d " + b + "h " + c + "m " + d + "s";
    assert t[|t| - 1] == 's';
  }
}
