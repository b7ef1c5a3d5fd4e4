/**
 * Helpers of the terminal interface: distance and time texts of an activity, and the progress
 * counters over the list of activities.
 */
module TuiUtils {
  import opened Wrappers
  import opened Ints
  import opened Decimal
  import opened Clock
  import opened Asyncdata
  import CommonTypes

  /** The fields of the activity data these helpers read: timer time in ms, one distance per session in cm. */
  datatype ActivityData = ActivityData(totalTime: uint32, distances: seq<uint32>)

  /** `dist += d` over the distances, wrapping at 2^32. */
  method GetTotalDistance(data: ActivityData) returns (dist: uint32)
    ensures dist == WrappingSum(data.distances)
  {
    dist := 0;
    var i := 0;
    while i < |data.distances|
      invariant 0 <= i <= |data.distances|
      invariant dist == WrappingSum(data.distances[..i])
    {
      WrappingSumStep(data.distances, i);
      dist := AddUint32(dist, data.distances[i]);
      i := i + 1;
    }
    assert data.distances[..i] == data.distances;
  }

  /**
   * The distance text as written: the sum is divided by 100 and again by 1000 before the
   * kilometre test, so the short branch prints whole kilometres followed by "m".
   */
  function FormatTotalDistance(data: ActivityData, fixed: (nat, nat) -> string): (r: string)
    ensures var total := WrappingSum(data.distances);
      && (total / 100 / 1000 < 1000 ==> ReadsAs(r, "m", total / 100 / 1000))
      && (total / 100 / 1000 >= 1000 ==> |r| >= 2 && r[|r| - 2..] == "km")
  {
    var meters := WrappingSum(data.distances) / 100 / 1000;
    if meters >= 1000 then
      var formatted := fixed(meters, 3);
      var withoutZeros := TrimRight(formatted, '0');
      var withoutPoint := TrimRight(withoutZeros, '.');
      withoutPoint + "km"
    else
      IntWithUnit(meters, "m");
      NatToString(meters) + "m"
  }

  /** A 5 km total (500000 cm) is shown as "5m". */
  lemma FormatTotalDistanceShowsKilometresAsMetres(fixed: (nat, nat) -> string)
    ensures var data := ActivityData(0, [500000]);
      && WrappingSum(data.distances) / 100 == 5000
      && FormatTotalDistance(data, fixed) == "5m"
  {
    assert Sum([500000]) == Sum([]) + 500000;
  }

  /**
   * The distance text with the evident intent, as the `common` package computes it: the sum divided
   * by 100 gives metres, shown as such below a kilometre.
   */
  function FormatTotalDistanceInMetres(data: ActivityData, fixed: (nat, nat) -> string): (r: string)
    ensures var total := WrappingSum(data.distances);
      && (total / 100 < 1000 ==> ReadsAs(r, "m", total / 100))
      && (total / 100 >= 1000 ==> |r| >= 2 && r[|r| - 2..] == "km")
  {
    var meters := WrappingSum(data.distances) / 100;
    if meters >= 1000 then
      var formatted := fixed(meters, 3);
      var withoutZeros := TrimRight(formatted, '0');
      var withoutPoint := TrimRight(withoutZeros, '.');
      withoutPoint + "km"
    else
      IntWithUnit(meters, "m");
      NatToString(meters) + "m"
  }

  /** The trimmed kilometre number never ends in '.', and a kept '.' is followed by a nonzero last digit. */
  lemma FormatTotalDistanceInMetresKmShape(data: ActivityData, fixed: (nat, nat) -> string)
    requires WrappingSum(data.distances) / 100 >= 1000
    requires IsFixedPoint(fixed(WrappingSum(data.distances) / 100, 3))
    ensures var r := FormatTotalDistanceInMetres(data, fixed);
      var km := r[..|r| - 2];
      && |km| > 0 && km[|km| - 1] != '.' && IsDigit(km[|km| - 1])
      && ('.' in km ==> '1' <= km[|km| - 1] <= '9')
  {
    var t := fixed(WrappingSum(data.distances) / 100, 3);
    var km := TrimFraction(t);
    assert (km + "km")[..|km|] == km;
    TrimFractionShape(t);
  }

  /**
   * Whole seconds of the total time: digits, then "MM:SS", "HH:MM:SS" or "D:HH:MM:SS", with one
   * field per shown component, padded as printed, reading back as the decomposition of the seconds.
   */
  function FormatTotalTime(data: ActivityData): (r: string)
    ensures ColonWidths(data.totalTime / 1000, Split(r, ':'))
    ensures ParseColon(r) == Some(Decompose(data.totalTime / 1000))
  {
    ColonRoundTrip(data.totalTime / 1000);
    ColonText(data.totalTime / 1000)
  }

  // ---------------------------------------------------------------------------------------------
  // Progress counters

  /** How many activities have parsed data. */
  function CountSuccess(acts: seq<CommonTypes.Activity>): nat
  {
    if acts == [] then 0
    else CountSuccess(acts[..|acts| - 1]) + (if IsSuccess(acts[|acts| - 1].data.asyncData) then 1 else 0)
  }

  /** How many activities failed to parse. */
  function CountFailure(acts: seq<CommonTypes.Activity>): nat
  {
    if acts == [] then 0
    else CountFailure(acts[..|acts| - 1]) + (if IsFailure(acts[|acts| - 1].data.asyncData) then 1 else 0)
  }

  /** Extending a prefix by one activity adds that activity to the counts. */
  lemma CountStep(acts: seq<CommonTypes.Activity>, i: nat)
    requires i < |acts|
    ensures CountSuccess(acts[..i + 1]) == CountSuccess(acts[..i]) + (if IsSuccess(acts[i].data.asyncData) then 1 else 0)
    ensures CountFailure(acts[..i + 1]) == CountFailure(acts[..i]) + (if IsFailure(acts[i].data.asyncData) then 1 else 0)
  {
    assert acts[..i + 1][..i] == acts[..i];
  }

  /** Whether any activity is being parsed: stops at the first loading one. */
  method ActivitiesAreLoading(acts: seq<CommonTypes.Activity>) returns (loading: bool)
    ensures loading <==> exists i :: 0 <= i < |acts| && IsLoading(acts[i].data.asyncData)
  {
    for i := 0 to |acts|
      invariant forall k :: 0 <= k < i ==> !IsLoading(acts[k].data.asyncData)
    {
      if IsLoading(acts[i].data.asyncData) {
        return true;
      }
    }
    return false;
  }

  /** Counts the activities with parsed data. */
  method ActivitiesSuccess(acts: seq<CommonTypes.Activity>) returns (count: int)
    ensures count == CountSuccess(acts)
  {
    count := 0;
    for i := 0 to |acts|
      invariant count == CountSuccess(acts[..i])
    {
      assert acts[..i + 1][..i] == acts[..i];
      if IsSuccess(acts[i].data.asyncData) {
        count := count + 1;
      }
    }
    assert acts[..|acts|] == acts;
  }

  /** Counts the activities that failed to parse. */
  method ActivitiesFailures(acts: seq<CommonTypes.Activity>) returns (count: int)
    ensures count == CountFailure(acts)
  {
    count := 0;
    for i := 0 to |acts|
      invariant count == CountFailure(acts[..i])
    {
      assert acts[..i + 1][..i] == acts[..i];
      if IsFailure(acts[i].data.asyncData) {
        count := count + 1;
      }
    }
    assert acts[..|acts|] == acts;
  }

  /** Each activity is in one state, so parsed and failed together never exceed the list. */
  lemma {:induction false} CountsWithinLength(acts: seq<CommonTypes.Activity>)
    ensures CountSuccess(acts) + CountFailure(acts) <= |acts|
    decreases |acts|
  {
    if acts != [] {
      CountsWithinLength(acts[..|acts| - 1]);
      ExactlyOneState(acts[|acts| - 1].data.asyncData);
    }
  }

  /** All activities are parsed exactly when the success count is the length, and none exactly when it is 0. */
  lemma {:induction false} CountSuccessExtremes(acts: seq<CommonTypes.Activity>)
    ensures CountSuccess(acts) == |acts| <==> forall i :: 0 <= i < |acts| ==> IsSuccess(acts[i].data.asyncData)
    ensures CountSuccess(acts) == 0 <==> forall i :: 0 <= i < |acts| ==> !IsSuccess(acts[i].data.asyncData)
    decreases |acts|
  {
    if acts != [] {
      var prefix := acts[..|acts| - 1];
      CountSuccessExtremes(prefix);
      CountSuccessAtMostLength(prefix);
      assert forall i :: 0 <= i < |prefix| ==> prefix[i] == acts[i];
    }
  }

  /** The success count never exceeds the length. */
  lemma {:induction false} CountSuccessAtMostLength(acts: seq<CommonTypes.Activity>)
    ensures CountSuccess(acts) <= |acts|
    decreases |acts|
  {
    if acts != [] {
      CountSuccessAtMostLength(acts[..|acts| - 1]);
    }
  }

  /** All activities failed exactly when the failure count is the length, and none exactly when it is 0. */
  lemma {:induction false} CountFailureExtremes(acts: seq<CommonTypes.Activity>)
    ensures CountFailure(acts) == |acts| <==> forall i :: 0 <= i < |acts| ==> IsFailure(acts[i].data.asyncData)
    ensures CountFailure(acts) == 0 <==> forall i :: 0 <= i < |acts| ==> !IsFailure(acts[i].data.asyncData)
    decreases |acts|
  {
    if acts != [] {
      var prefix := acts[..|acts| - 1];
      CountFailureExtremes(prefix);
      CountFailureAtMostLength(prefix);
      assert forall i :: 0 <= i < |prefix| ==> prefix[i] == acts[i];
    }
  }

  /** The failure count never exceeds the length. */
  lemma {:induction false} CountFailureAtMostLength(acts: seq<CommonTypes.Activity>)
    ensures CountFailure(acts) <= |acts|
    decreases |acts|
  {
    if acts != [] {
      CountFailureAtMostLength(acts[..|acts| - 1]);
    }
  }
}
