/**
 * Statistics over the samples of a decoded activity and the extraction of the per-session and
 * per-record columns that the parser stores in its activity data.
 *
 * `math.Round(float64(total) / float64(l))` is modelled by its exact integer counterpart
 * `(2 * total + l) / (2 * l)`, rounding halves up; the running `uint64` total is unbounded here.
 */
module FitParser {
  import opened Wrappers
  import opened Ints
  import FitFile

  /** `basetype.Uint16Invalid` and `basetype.Uint8Invalid`: the value of a field the device left empty. */
  const Uint16Invalid: uint16 := 0xFFFF
  const Uint8Invalid: uint8 := 0xFF

  datatype SpeedStats = SpeedStats(avg: uint16, max: uint16)

  datatype GpsAccuracyStat = GpsAccuracyStat(avg: uint8, min: uint8, max: uint8)

  /** What the parser stores for an activity (this iteration's `common.ActivityData`). */
  datatype ActivityData = ActivityData(
    localTime: int,
    totalTime: uint32,
    totalDistances: seq<uint32>,
    temperatures: seq<int8>,
    speed: SpeedStats,
    descents: seq<uint16>,
    ascents: seq<uint16>,
    noSessions: uint32,
    noRecords: uint32,
    gpsAccuracy: GpsAccuracyStat)

  // ---------------------------------------------------------------------------------------------
  // Specification of the statistics

  /** The speed field of every record, in record order, sentinels included. */
  function SpeedColumn(records: seq<FitFile.Record>): seq<uint16>
  {
    seq(|records|, i requires 0 <= i < |records| => records[i].speed)
  }

  /** The GPS accuracy field of every record, in record order, sentinels included. */
  function GpsAccuracyColumn(records: seq<FitFile.Record>): seq<uint8>
  {
    seq(|records|, i requires 0 <= i < |records| => records[i].gpsAccuracy)
  }

  /** The speed samples that are not the sentinel, in record order. */
  function ValidSpeeds(records: seq<FitFile.Record>): (r: seq<uint16>)
    ensures |r| <= |records|
    ensures forall i :: 0 <= i < |r| ==> r[i] != Uint16Invalid
  {
    if records == [] then []
    else
      var value := records[|records| - 1].speed;
      ValidSpeeds(records[..|records| - 1]) + (if value != Uint16Invalid then [value] else [])
  }

  /** The GPS accuracy samples that are not the sentinel, in record order. */
  function ValidGpsAccuracies(records: seq<FitFile.Record>): (r: seq<uint8>)
    ensures |r| <= |records|
    ensures forall i :: 0 <= i < |r| ==> r[i] != Uint8Invalid
  {
    if records == [] then []
    else
      var value := records[|records| - 1].gpsAccuracy;
      ValidGpsAccuracies(records[..|records| - 1]) + (if value != Uint8Invalid then [value] else [])
  }

  /** Dropping every copy of `sentinel` from a column that grows by one value. */
  lemma DropStep<T>(column: seq<T>, value: T, sentinel: T)
    ensures multiset(column + [value])[sentinel := 0]
         == multiset(column)[sentinel := 0] + (if value != sentinel then multiset{value} else multiset{})
  {
    assert multiset(column + [value]) == multiset(column) + multiset{value};
  }

  /** Every valid speed is kept as often as the records carry it, and the sentinel never. */
  lemma {:induction false} ValidSpeedsCounts(records: seq<FitFile.Record>)
    ensures multiset(ValidSpeeds(records)) == multiset(SpeedColumn(records))[Uint16Invalid := 0]
    decreases |records|
  {
    if records != [] {
      var prefix := records[..|records| - 1];
      var value := records[|records| - 1].speed;
      ValidSpeedsCounts(prefix);
      assert SpeedColumn(records) == SpeedColumn(prefix) + [value];
      assert ValidSpeeds(records) == ValidSpeeds(prefix) + (if value != Uint16Invalid then [value] else []);
      DropStep(SpeedColumn(prefix), value, Uint16Invalid);
    }
  }

  /** Every valid GPS accuracy is kept as often as the records carry it, and the sentinel never. */
  lemma {:induction false} ValidGpsAccuraciesCounts(records: seq<FitFile.Record>)
    ensures multiset(ValidGpsAccuracies(records)) == multiset(GpsAccuracyColumn(records))[Uint8Invalid := 0]
    decreases |records|
  {
    if records != [] {
      var prefix := records[..|records| - 1];
      var value := records[|records| - 1].gpsAccuracy;
      ValidGpsAccuraciesCounts(prefix);
      assert GpsAccuracyColumn(records) == GpsAccuracyColumn(prefix) + [value];
      assert ValidGpsAccuracies(records) == ValidGpsAccuracies(prefix) + (if value != Uint8Invalid then [value] else []);
      DropStep(GpsAccuracyColumn(prefix), value, Uint8Invalid);
    }
  }

  /** A sample is kept exactly when some record carries it and it is not the sentinel. */
  lemma {:induction false} ValidSpeedsMembers(records: seq<FitFile.Record>, x: int)
    ensures x in ValidSpeeds(records) <==>
      x != Uint16Invalid && exists i :: 0 <= i < |records| && records[i].speed == x
    decreases |records|
  {
    if records != [] {
      var prefix := records[..|records| - 1];
      ValidSpeedsMembers(prefix, x);
      if x != Uint16Invalid && (exists i :: 0 <= i < |records| && records[i].speed == x) {
        var i :| 0 <= i < |records| && records[i].speed == x;
        if i < |prefix| {
          assert prefix[i].speed == x;
        }
      }
      if x in ValidSpeeds(prefix) {
        var i :| 0 <= i < |prefix| && prefix[i].speed == x;
        assert records[i].speed == x;
      }
    }
  }

  /** A GPS sample is kept exactly when some record carries it and it is not the sentinel. */
  lemma {:induction false} ValidGpsAccuraciesMembers(records: seq<FitFile.Record>, x: int)
    ensures x in ValidGpsAccuracies(records) <==>
      x != Uint8Invalid && exists i :: 0 <= i < |records| && records[i].gpsAccuracy == x
    decreases |records|
  {
    if records != [] {
      var prefix := records[..|records| - 1];
      ValidGpsAccuraciesMembers(prefix, x);
      if x != Uint8Invalid && (exists i :: 0 <= i < |records| && records[i].gpsAccuracy == x) {
        var i :| 0 <= i < |records| && records[i].gpsAccuracy == x;
        if i < |prefix| {
          assert prefix[i].gpsAccuracy == x;
        }
      }
      if x in ValidGpsAccuracies(prefix) {
        var i :| 0 <= i < |prefix| && prefix[i].gpsAccuracy == x;
        assert records[i].gpsAccuracy == x;
      }
    }
  }

  /** The running maximum of a loop that starts at 0. */
  function Largest(xs: seq<nat>): nat
  {
    if xs == [] then 0
    else
      var m := Largest(xs[..|xs| - 1]);
      if m < xs[|xs| - 1] then xs[|xs| - 1] else m
  }

  /** The running minimum of a loop seeded with `seed`. */
  function Smallest(seed: nat, xs: seq<nat>): nat
  {
    if xs == [] then seed
    else
      var m := Smallest(seed, xs[..|xs| - 1]);
      if xs[|xs| - 1] < m then xs[|xs| - 1] else m
  }

  /** The maximum of a non-empty list is one of its elements and bounds all of them. */
  lemma {:induction false} LargestIsMaximum(xs: seq<nat>)
    requires |xs| > 0
    ensures Largest(xs) in xs
    ensures forall i :: 0 <= i < |xs| ==> xs[i] <= Largest(xs)
    decreases |xs|
  {
    var prefix := xs[..|xs| - 1];
    if |prefix| > 0 {
      LargestIsMaximum(prefix);
      assert forall i :: 0 <= i < |prefix| ==> xs[i] == prefix[i];
    }
  }

  /** Seeded with the first element, the minimum is one of the elements and bounded by all of them. */
  lemma {:induction false} SmallestIsMinimum(xs: seq<nat>, k: nat)
    requires 0 < k <= |xs|
    ensures Smallest(xs[0], xs[..k]) in xs[..k]
    ensures forall i :: 0 <= i < k ==> Smallest(xs[0], xs[..k]) <= xs[i]
    decreases k
  {
    assert xs[..k][..k - 1] == xs[..k - 1];
    if k > 1 {
      SmallestIsMinimum(xs, k - 1);
    } else {
      assert xs[..1][..0] == [];
    }
  }

  /** The sum lies between the length times the minimum and the length times the maximum. */
  lemma {:induction false} SumBetween(xs: seq<nat>, lo: nat, hi: nat)
    requires forall i :: 0 <= i < |xs| ==> lo <= xs[i] <= hi
    ensures |xs| * lo <= Sum(xs) <= |xs| * hi
    decreases |xs|
  {
    if xs != [] {
      var prefix := xs[..|xs| - 1];
      assert forall i :: 0 <= i < |prefix| ==> prefix[i] == xs[i];
      SumBetween(prefix, lo, hi);
      assert |xs| * lo == |prefix| * lo + lo;
      assert |xs| * hi == |prefix| * hi + hi;
    }
  }

  /** The integer nearest to `total / count`, halves rounded up (`math.Round` on non-negative values). */
  function RoundedMean(total: nat, count: nat): nat
    requires count > 0
  {
    (2 * total + count) / (2 * count)
  }

  /** The rounded mean is the integer nearest `total / count`: within half a unit below, less than half above. */
  lemma RoundedMeanIsNearest(total: nat, count: nat)
    requires count > 0
    ensures var r := RoundedMean(total, count);
      2 * count * r <= 2 * total + count < 2 * count * (r + 1)
  {
    var r := RoundedMean(total, count);
    var m := (2 * total + count) % (2 * count);
    assert 2 * total + count == 2 * count * r + m && 0 <= m < 2 * count;
  }

  /** Multiplying by a natural number keeps an ordering. */
  lemma {:induction false} MulMonotone(c: nat, a: int, b: int)
    requires a <= b
    ensures c * a <= c * b
    decreases c
  {
    if c > 0 {
      MulMonotone(c - 1, a, b);
      assert c * a == (c - 1) * a + a;
      assert c * b == (c - 1) * b + b;
    }
  }

  /** A strict ordering of multiples by the same positive factor is an ordering of the factors. */
  lemma MulLessCancel(c: nat, a: int, b: int)
    requires c > 0 && c * a < c * b
    ensures a < b
  {
    if a >= b {
      MulMonotone(c, b, a);
      assert false;
    }
  }

  /** A rounded mean of values at most `hi` is at most `hi`. */
  lemma RoundedMeanAtMost(total: nat, count: nat, hi: nat)
    requires count > 0 && total <= count * hi
    ensures RoundedMean(total, count) <= hi
  {
    var r := RoundedMean(total, count);
    RoundedMeanIsNearest(total, count);
    assert 2 * count * r < 2 * count * (hi + 1) by {
      assert 2 * count * (hi + 1) == 2 * (count * hi) + 2 * count;
    }
    MulLessCancel(2 * count, r, hi + 1);
  }

  /** A floored mean of values between `lo` and `hi` is between them. */
  lemma FlooredMeanBetween(total: nat, count: nat, lo: nat, hi: nat)
    requires count > 0 && count * lo <= total <= count * hi
    ensures lo <= total / count <= hi
  {
    var q := total / count;
    var m := total % count;
    assert total == count * q + m && 0 <= m < count;
    assert count * q < count * (hi + 1) by {
      assert count * (hi + 1) == count * hi + count;
    }
    MulLessCancel(count, q, hi + 1);
    assert count * (lo - 1) < count * (q + 1) by {
      assert count * (lo - 1) == count * lo - count;
      assert count * (q + 1) == count * q + count;
    }
    MulLessCancel(count, lo - 1, q + 1);
  }

  /** The speed statistics `parseSpeed` promises: zero without valid samples, else the maximum and the rounded mean. */
  function SpeedStatsOf(valid: seq<uint16>): SpeedStats
  {
    if |valid| == 0 then SpeedStats(0, 0)
    else
      LargestIsMaximum(valid);
      SumBetween(valid, 0, Largest(valid));
      RoundedMeanAtMost(Sum(valid), |valid|, Largest(valid));
      SpeedStats(RoundedMean(Sum(valid), |valid|), Largest(valid))
  }

  /** The valid speeds' statistics: the maximum is the largest sample, and the average does not exceed it. */
  lemma SpeedStatsBounds(valid: seq<uint16>)
    requires |valid| > 0
    ensures var stats := SpeedStatsOf(valid);
      && stats.max in valid
      && (forall i :: 0 <= i < |valid| ==> valid[i] <= stats.max)
      && stats.avg <= stats.max
  {
    LargestIsMaximum(valid);
    SumBetween(valid, 0, Largest(valid));
    RoundedMeanAtMost(Sum(valid), |valid|, Largest(valid));
  }

  // ---------------------------------------------------------------------------------------------
  // The loops of the parser

  /** `parseSpeed`: collects the valid samples, then accumulates the total and the maximum. */
  method ParseSpeed(records: seq<FitFile.Record>) returns (stats: SpeedStats)
    ensures stats == SpeedStatsOf(ValidSpeeds(records))
  {
    var list: seq<uint16> := [];
    var n := 0;
    while n < |records|
      invariant 0 <= n <= |records|
      invariant list == ValidSpeeds(records[..n])
    {
      var value := records[n].speed;
      assert records[..n + 1][..n] == records[..n];
      if value != Uint16Invalid {
        list := list + [value];
      }
      n := n + 1;
    }
    assert records[..|records|] == records;
    var l := |list|;
    if l == 0 {
      return SpeedStats(0, 0);
    }
    var total: nat := 0;
    var max: uint16 := 0;
    var i := 0;
    while i < l
      invariant 0 <= i <= l
      invariant total == Sum(list[..i])
      invariant max == Largest(list[..i])
    {
      var value := list[i];
      assert list[..i + 1][..i] == list[..i];
      total := total + value;
      if max < value {
        max := value;
      }
      i := i + 1;
    }
    assert list[..l] == list;
    SpeedLoopResult(list, total, max);
    var avg := RoundedMean(total, l);
    return SpeedStats(avg, max);
  }

  /** What the accumulation loop of `parseSpeed` ends with is the specified statistic. */
  lemma SpeedLoopResult(list: seq<uint16>, total: nat, max: uint16)
    requires |list| > 0 && total == Sum(list) && max == Largest(list)
    ensures RoundedMean(total, |list|) <= 0xFFFF
    ensures SpeedStatsOf(list) == SpeedStats(RoundedMean(total, |list|), max)
  {
    LargestIsMaximum(list);
    SumBetween(list, 0, max);
    RoundedMeanAtMost(total, |list|, max);
  }

  /** The GPS accuracy statistics: panics on no valid sample (the mean divides by the count), else min, max and floored mean. */
  function GpsAccuracyStatOf(valid: seq<uint8>): Outcome<GpsAccuracyStat>
  {
    if |valid| == 0 then Panics("integer divide by zero")
    else
      LargestIsMaximum(valid);
      SmallestIsMinimum(valid, |valid|);
      assert valid[..|valid|] == valid;
      SumBetween(valid, Smallest(valid[0], valid), Largest(valid));
      FlooredMeanBetween(Sum(valid), |valid|, Smallest(valid[0], valid), Largest(valid));
      Returns(GpsAccuracyStat(Sum(valid) / |valid|, Smallest(valid[0], valid), Largest(valid)))
  }

  /** With valid samples, the statistics are the minimum, the maximum and a mean between them; without, a panic. */
  lemma GpsAccuracyStatBounds(valid: seq<uint8>)
    ensures var out := GpsAccuracyStatOf(valid);
      && (out.Panics? <==> |valid| == 0)
      && (out.Returns? ==>
            && out.value.min in valid && out.value.max in valid
            && (forall i :: 0 <= i < |valid| ==> out.value.min <= valid[i] <= out.value.max)
            && out.value.min <= out.value.avg <= out.value.max)
  {
    if |valid| > 0 {
      LargestIsMaximum(valid);
      SmallestIsMinimum(valid, |valid|);
      assert valid[..|valid|] == valid;
      SumBetween(valid, Smallest(valid[0], valid), Largest(valid));
      FlooredMeanBetween(Sum(valid), |valid|, Smallest(valid[0], valid), Largest(valid));
    }
  }

  /** `parseGpsAccurancies`: collects the valid samples, seeds the minimum with the first, then accumulates. */
  method ParseGpsAccuracies(records: seq<FitFile.Record>) returns (out: Outcome<GpsAccuracyStat>)
    ensures out == GpsAccuracyStatOf(ValidGpsAccuracies(records))
  {
    var list: seq<uint8> := [];
    var n := 0;
    while n < |records|
      invariant 0 <= n <= |records|
      invariant list == ValidGpsAccuracies(records[..n])
    {
      var value := records[n].gpsAccuracy;
      assert records[..n + 1][..n] == records[..n];
      if value != Uint8Invalid {
        list := list + [value];
      }
      n := n + 1;
    }
    assert records[..|records|] == records;
    var min: uint8 := 0;
    if |list| > 0 {
      min := list[0];
    }
    var stat := GpsAccuracyStat(0, min, 0);
    var total: nat := 0;
    var i := 0;
    while i < |list|
      invariant 0 <= i <= |list|
      invariant total == Sum(list[..i])
      invariant stat.max == Largest(list[..i])
      invariant |list| > 0 ==> stat.min == Smallest(list[0], list[..i])
    {
      var value := list[i];
      assert list[..i + 1][..i] == list[..i];
      total := total + value;
      if value < stat.min {
        stat := stat.(min := value);
      }
      if value > stat.max {
        stat := stat.(max := value);
      }
      i := i + 1;
    }
    if |list| == 0 {
      return Panics("integer divide by zero");
    }
    assert list[..|list|] == list;
    GpsAccuracyLoopResult(list, total, stat.min, stat.max);
    stat := stat.(avg := total / |list|);
    return Returns(stat);
  }

  /** What the accumulation loop of `parseGpsAccurancies` ends with is the specified statistic. */
  lemma GpsAccuracyLoopResult(list: seq<uint8>, total: nat, min: uint8, max: uint8)
    requires |list| > 0 && total == Sum(list) && min == Smallest(list[0], list) && max == Largest(list)
    ensures total / |list| <= 255
    ensures GpsAccuracyStatOf(list) == Returns(GpsAccuracyStat(total / |list|, min, max))
  {
    LargestIsMaximum(list);
    SmallestIsMinimum(list, |list|);
    assert list[..|list|] == list;
    SumBetween(list, min, max);
    FlooredMeanBetween(total, |list|, min, max);
  }

  // ---------------------------------------------------------------------------------------------
  // The column extraction of ParseFile

  /** `uint32(n)`: Go's conversion of a length keeps its low 32 bits. */
  function ToUint32(n: nat): (r: uint32)
    ensures n < Uint32Modulus ==> r == n
  {
    n % Uint32Modulus
  }

  /**
   * The part of `ParseFile` after decoding: one distance, ascent and descent per session and one
   * temperature per record, in order, with both statistics; a panic when no record has a GPS accuracy.
   */
  method ExtractActivityData(act: FitFile.Activity) returns (out: Outcome<ActivityData>)
    ensures out.Panics? <==> |ValidGpsAccuracies(act.records)| == 0
    ensures out.Returns? ==>
      var ad := out.value;
      && |ad.totalDistances| == |ad.ascents| == |ad.descents| == |act.sessions|
      && (forall i :: 0 <= i < |act.sessions| ==>
            && ad.totalDistances[i] == act.sessions[i].totalDistance
            && ad.ascents[i] == act.sessions[i].totalAscent
            && ad.descents[i] == act.sessions[i].totalDescent)
      && |ad.temperatures| == |act.records|
      && (forall i :: 0 <= i < |act.records| ==> ad.temperatures[i] == act.records[i].temperature)
      && ad.noSessions == ToUint32(|act.sessions|)
      && ad.noRecords == ToUint32(|act.records|)
      && ad.localTime == act.activity.localTimestamp
      && ad.totalTime == act.activity.totalTimerTime
      && ad.speed == SpeedStatsOf(ValidSpeeds(act.records))
      && Returns(ad.gpsAccuracy) == GpsAccuracyStatOf(ValidGpsAccuracies(act.records))
  {
    var noSessions := |act.sessions|;
    var noRecords := |act.records|;

    var distances := new uint32[noSessions];
    for i := 0 to noSessions
      invariant forall k :: 0 <= k < i ==> distances[k] == act.sessions[k].totalDistance
    {
      distances[i] := act.sessions[i].totalDistance;
    }
    var totalDistances := distances[..];

    var ascents := new uint16[noSessions];
    for i := 0 to noSessions
      invariant forall k :: 0 <= k < i ==> ascents[k] == act.sessions[k].totalAscent
    {
      ascents[i] := act.sessions[i].totalAscent;
    }
    var totalAscents := ascents[..];

    var descents := new uint16[noSessions];
    for i := 0 to noSessions
      invariant forall k :: 0 <= k < i ==> descents[k] == act.sessions[k].totalDescent
    {
      descents[i] := act.sessions[i].totalDescent;
    }
    var totalDescents := descents[..];

    var temperatures := new int8[noRecords];
    for i := 0 to noRecords
      invariant forall k :: 0 <= k < i ==> temperatures[k] == act.records[k].temperature
    {
      temperatures[i] := act.records[i].temperature;
    }
    var recordTemperatures := temperatures[..];

    var speed := ParseSpeed(act.records);
    var gps := ParseGpsAccuracies(act.records);
    if gps.Panics? {
      return Panics(gps.reason);
    }
    var ad := ActivityData(
      act.activity.localTimestamp,
      act.activity.totalTimerTime,
      totalDistances,
      recordTemperatures,
      speed,
      totalDescents,
      totalAscents,
      ToUint32(noSessions),
      ToUint32(noRecords),
      gps.value);
    return Returns(ad);
  }
}
