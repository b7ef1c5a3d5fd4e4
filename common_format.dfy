/**
 * The free-standing formatters of the `common` package: total time in the zero-padded unit style,
 * total distance in metres or trimmed kilometres, and temperature, ascent and descent with their units.
 *
 * Temperatures are the decoder's `int8` degrees Celsius and ascents and descents its `uint16` metres.
 */
module CommonFormat {
  import opened Wrappers
  import opened Ints
  import opened Decimal
  import opened Clock

  type Temperature = int8
  type Ascent = uint16
  type Descent = uint16

  /**
   * Whole seconds: bare digits exactly below a minute, then "MMm SSs", "HHh MMm SSs" or
   * "Dd HHh MMm SSs", one token per shown component, padded as printed, reading back as the decomposition.
   */
  function FormatTotalTime(totalTime: uint32): (r: string)
    ensures AllDigits(r) <==> totalTime / 1000 < 60
    ensures PaddedWidths(totalTime / 1000, Split(r, ' '))
    ensures ParseUnits(r) == Some(Decompose(totalTime / 1000))
  {
    PaddedUnitRoundTrip(totalTime / 1000);
    PaddedUnitText(totalTime / 1000)
  }

  /** Metres below a kilometre, otherwise the one-digit kilometre text with trailing zeros and '.' trimmed. */
  function FormatTotalDistance(dist: uint32, fixed: (nat, nat) -> string): (r: string)
    ensures dist / 100 < 1000 ==> ReadsAs(r, "m", dist / 100)
    ensures dist / 100 >= 1000 ==> |r| >= 2 && r[|r| - 2..] == "km"
  {
    var meters := dist / 100;
    if meters >= 1000 then
      var formatted := fixed(meters, 1);
      var withoutZeros := TrimRight(formatted, '0');
      var withoutPoint := TrimRight(withoutZeros, '.');
      withoutPoint + "km"
    else
      IntWithUnit(meters, "m");
      NatToString(meters) + "m"
  }

  /** The kilometre number never ends in '.', a kept '.' is followed by a nonzero last digit, and only insignificant characters were cut. */
  lemma FormatTotalDistanceKmShape(dist: uint32, fixed: (nat, nat) -> string)
    requires dist / 100 >= 1000
    requires IsFixedPoint(fixed(dist / 100, 1))
    ensures var r := FormatTotalDistance(dist, fixed);
      var km := r[..|r| - 2];
      var t := fixed(dist / 100, 1);
      && |km| > 0 && km[|km| - 1] != '.' && IsDigit(km[|km| - 1])
      && ('.' in km ==> '1' <= km[|km| - 1] <= '9')
      && km <= t && Insignificant(t[|km|..])
  {
    var r := FormatTotalDistance(dist, fixed);
    var km := TrimFraction(fixed(dist / 100, 1));
    assert (km + "km")[..|km|] == km;
    TrimFractionShape(fixed(dist / 100, 1));
  }

  /** The temperature as a signed decimal followed by "°C". */
  function FormatTemperature(t: Temperature): (r: string)
    ensures ReadsAs(r, "°C", t)
  {
    IntWithUnit(t, "°C");
    IntToString(t) + "°C"
  }

  /** The ascent as a decimal followed by "m". */
  function FormatAscent(v: Ascent): (r: string)
    ensures ReadsAs(r, "m", v)
  {
    IntWithUnit(v, "m");
    IntToString(v) + "m"
  }

  /** The descent as a decimal followed by "m". */
  function FormatDescent(v: Descent): (r: string)
    ensures ReadsAs(r, "m", v)
  {
    IntWithUnit(v, "m");
    IntToString(v) + "m"
  }
}
