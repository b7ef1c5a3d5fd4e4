/**
 * Helpers of the `fit` package over a decoded activity file: the summed record distance and the
 * total distance and total time texts.
 */
module FitUtils {
  import opened Wrappers
  import opened Ints
  import opened Decimal
  import opened Clock
  import FitFile

  /** The distance field of every record, in record order. */
  function RecordDistances(records: seq<FitFile.Record>): (r: seq<uint32>)
    ensures |r| == |records|
    ensures forall i :: 0 <= i < |records| ==> r[i] == records[i].distance
  {
    seq(|records|, i requires 0 <= i < |records| => records[i].distance)
  }

  /** `dist += rec.Distance` over the records, wrapping at 2^32. */
  method GetTotalDistance(act: FitFile.Activity) returns (dist: uint32)
    ensures dist == WrappingSum(RecordDistances(act.records))
  {
    var distances := RecordDistances(act.records);
    dist := 0;
    var i := 0;
    while i < |act.records|
      invariant 0 <= i <= |act.records|
      invariant dist == WrappingSum(distances[..i])
    {
      WrappingSumStep(distances, i);
      dist := AddUint32(dist, act.records[i].distance);
      i := i + 1;
    }
    assert distances[..i] == distances;
  }

  /**
   * The distance text as written: the sum is divided by 100 and again by 1000 before the
   * kilometre test, so the short branch prints whole kilometres followed by "m".
   */
  function FormatTotalDistance(act: FitFile.Activity, fixed: (nat, nat) -> string): (r: string)
    ensures var total := WrappingSum(RecordDistances(act.records));
      && (total / 100 / 1000 < 1000 ==> ReadsAs(r, "m", total / 100 / 1000))
      && (total / 100 / 1000 >= 1000 ==> |r| >= 2 && r[|r| - 2..] == "km")
  {
    var meters := WrappingSum(RecordDistances(act.records)) / 100 / 1000;
    if meters >= 1000 then
      var formatted := fixed(meters, 3);
      var withoutZeros := TrimRight(formatted, '0');
      var withoutPoint := TrimRight(withoutZeros, '.');
      withoutPoint + "km"
    else
      IntWithUnit(meters, "m");
      NatToString(meters) + "m"
  }

  /** A file whose records add up to 5 km (500000 cm) is shown as "5m". */
  lemma FormatTotalDistanceShowsKilometresAsMetres(fixed: (nat, nat) -> string)
    ensures var act := FitFile.Activity(FitFile.ActivityMesg(0, 0, 0), [], [FitFile.Record(0, 0, 0, 500000)]);
      && WrappingSum(RecordDistances(act.records)) / 100 == 5000
      && FormatTotalDistance(act, fixed) == "5m"
  {
    var act := FitFile.Activity(FitFile.ActivityMesg(0, 0, 0), [], [FitFile.Record(0, 0, 0, 500000)]);
    assert RecordDistances(act.records) == [500000];
    assert Sum([500000]) == Sum([]) + 500000;
  }

  /**
   * The distance text with the evident intent, as the `common` package computes it: the sum divided
   * by 100 gives metres, shown as such below a kilometre.
   */
  function FormatTotalDistanceInMetres(act: FitFile.Activity, fixed: (nat, nat) -> string): (r: string)
    ensures var total := WrappingSum(RecordDistances(act.records));
      && (total / 100 < 1000 ==> ReadsAs(r, "m", total / 100))
      && (total / 100 >= 1000 ==> |r| >= 2 && r[|r| - 2..] == "km")
  {
    var meters := WrappingSum(RecordDistances(act.records)) / 100;
    if meters >= 1000 then
      var formatted := fixed(meters, 3);
      var withoutZeros := TrimRight(formatted, '0');
      var withoutPoint := TrimRight(withoutZeros, '.');
      withoutPoint + "km"
    else
      IntWithUnit(meters, "m");
      NatToString(meters) + "m"
  }

  /** With metres, a total below a kilometre prints its metres and anything from a kilometre on prints kilometres. */
  lemma FormatTotalDistanceInMetresUnits(act: FitFile.Activity, fixed: (nat, nat) -> string)
    ensures var total := WrappingSum(RecordDistances(act.records));
      var r := FormatTotalDistanceInMetres(act, fixed);
      (r[|r| - 2..] == "km" <==> total >= 100000)
  {
    var total := WrappingSum(RecordDistances(act.records));
    var r := FormatTotalDistanceInMetres(act, fixed);
    if total < 100000 {
      var digits := NatToString(total / 100);
      assert r == digits + "m";
      assert r[|r| - 2] == digits[|digits| - 1];
    }
  }

  /**
   * Whole seconds of the timer time: digits, then "MM:SS", "HH:MM:SS" or "D:HH:MM:SS", with one
   * field per shown component, padded as printed, reading back as the decomposition of the seconds.
   */
  function FormatTotalTime(act: FitFile.Activity): (r: string)
    ensures ColonWidths(act.activity.totalTimerTime / 1000, Split(r, ':'))
    ensures ParseColon(r) == Some(Decompose(act.activity.totalTimerTime / 1000))
  {
    ColonRoundTrip(act.activity.totalTimerTime / 1000);
    ColonText(act.activity.totalTimerTime / 1000)
  }
}
