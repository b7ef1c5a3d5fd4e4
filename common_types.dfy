/**
 * The activity types of the `common` package in the iteration that keeps one distance per session:
 * the decoded data, its four-state wrapper with the list-item texts, and the activity (path and state).
 *
 * The local time is an integer instant; its layout `02.01.06 15:04` is a parameter `formatLocalTime`.
 */
module CommonTypes {
  import opened Wrappers
  import opened Ints
  import opened Decimal
  import opened Clock
  import opened Asyncdata

  type Error = string

  datatype ActivityData = ActivityData(localTime: int, totalTime: uint32, totalDistances: seq<uint32>)
  {
    /** `dist += d` over the session distances, wrapping at 2^32. */
    method GetTotalDistance() returns (dist: uint32)
      ensures dist == WrappingSum(totalDistances)
    {
      dist := 0;
      var i := 0;
      while i < |totalDistances|
        invariant 0 <= i <= |totalDistances|
        invariant dist == WrappingSum(totalDistances[..i])
      {
        WrappingSumStep(totalDistances, i);
        dist := AddUint32(dist, totalDistances[i]);
        i := i + 1;
      }
      assert totalDistances[..i] == totalDistances;
    }

    /** Metres of the summed distance below a kilometre, otherwise trimmed one-digit kilometres. */
    function FormatTotalDistance(fixed: (nat, nat) -> string): (r: string)
      ensures WrappingSum(totalDistances) / 100 < 1000 ==> ReadsAs(r, "m", WrappingSum(totalDistances) / 100)
      ensures WrappingSum(totalDistances) / 100 >= 1000 ==> |r| >= 2 && r[|r| - 2..] == "km"
    {
      var meters := WrappingSum(totalDistances) / 100;
      if meters >= 1000 then
        var formatted := fixed(meters, 1);
        var withoutZeros := TrimRight(formatted, '0');
        var withoutPoint := TrimRight(withoutZeros, '.');
        withoutPoint + "km"
      else
        IntWithUnit(meters, "m");
        NatToString(meters) + "m"
    }

    /**
     * Whole seconds of the total time in the zero-padded unit style: bare digits exactly below a
     * minute, one token per shown component, padded as printed, reading back as the decomposition.
     */
    function FormatTotalTime(): (r: string)
      ensures AllDigits(r) <==> totalTime / 1000 < 60
      ensures PaddedWidths(totalTime / 1000, Split(r, ' '))
      ensures ParseUnits(r) == Some(Decompose(totalTime / 1000))
    {
      PaddedUnitRoundTrip(totalTime / 1000);
      PaddedUnitText(totalTime / 1000)
    }
  }

  /** The kilometre number never ends in '.', and a kept '.' is followed by a nonzero last digit. */
  lemma FormatTotalDistanceKmShape(data: ActivityData, fixed: (nat, nat) -> string)
    requires WrappingSum(data.totalDistances) / 100 >= 1000
    requires IsFixedPoint(fixed(WrappingSum(data.totalDistances) / 100, 1))
    ensures var r := data.FormatTotalDistance(fixed);
      var km := r[..|r| - 2];
      && |km| > 0 && km[|km| - 1] != '.' && IsDigit(km[|km| - 1])
      && ('.' in km ==> '1' <= km[|km| - 1] <= '9')
  {
    var t := fixed(WrappingSum(data.totalDistances) / 100, 1);
    var km := TrimFraction(t);
    assert (km + "km")[..|km|] == km;
    TrimFractionShape(t);
  }

  /** The four-state value of an activity together with the texts the list shows for it. */
  datatype ActivityAD = ActivityAD(asyncData: AsyncData<Error, ActivityData>)
  {
    /** The text the list filters on: the local time of parsed data, empty otherwise. */
    function FilterValue(formatLocalTime: int -> string): (r: string)
      ensures IsSuccess(asyncData) ==> r == formatLocalTime(Success(asyncData).0.value.localTime)
      ensures !IsSuccess(asyncData) ==> r == ""
    {
      var (act, ok) := Success(asyncData);
      if ok then formatLocalTime(act.value.localTime) else ""
    }

    /** The item title: the local time of parsed data, empty otherwise. */
    function Title(formatLocalTime: int -> string): (r: string)
      ensures IsSuccess(asyncData) ==> r == formatLocalTime(Success(asyncData).0.value.localTime)
      ensures !IsSuccess(asyncData) ==> r == ""
    {
      var (act, ok) := Success(asyncData);
      if ok then formatLocalTime(act.value.localTime) else ""
    }

    /** The item description: the total distance of parsed data, empty otherwise. */
    function Description(fixed: (nat, nat) -> string): (r: string)
      ensures IsSuccess(asyncData) ==> r == Success(asyncData).0.value.FormatTotalDistance(fixed)
      ensures !IsSuccess(asyncData) ==> r == ""
    {
      var (act, ok) := Success(asyncData);
      if ok then act.value.FormatTotalDistance(fixed) else ""
    }
  }

  /** Until a parse has succeeded, the item shows no text at all. */
  lemma ItemTextsEmptyUntilSuccess(ad: ActivityAD, formatLocalTime: int -> string, fixed: (nat, nat) -> string)
    requires !ad.asyncData.success?
    ensures ad.FilterValue(formatLocalTime) == ad.Title(formatLocalTime) == ad.Description(fixed) == ""
  {
  }

  /** A parsed activity's description is never empty, whatever its distance. */
  lemma DescriptionOfSuccess(data: ActivityData, fixed: (nat, nat) -> string)
    ensures ActivityAD(NewSuccess(data)).Description(fixed) != ""
  {
  }

  datatype Activity = Activity(path: string, data: ActivityAD)
}
