/**
 * The activity value types of the `common` package, the activity with its record cursor, and the
 * sorting of a slice of activities by distance or by start time.
 *
 * Instants are integer offsets from 1970-01-01 00:00 UTC; a distance is in centimetres and a duration
 * in milliseconds, both `uint32`. The `%.Nf` rendering of a float number of kilometres is a parameter
 * `fixed(meters, places)` (the text of meters/1000 with `places` fraction digits).
 */
module Activities {
  import opened Wrappers
  import opened Ints
  import opened Decimal
  import opened Clock
  import opened Asyncdata

  /** An instant, as an integer offset from 1970-01-01 00:00 UTC. */
  datatype Time = Time(value: int)

  /** The start time assumed for an activity that has none: 1970-01-01 00:00 UTC. */
  const DefaultTime := Time(0)

  /** `t1.Before(t2)`. */
  predicate Before(t1: Time, t2: Time)
  {
    t1.value < t2.value
  }

  /** A duration in milliseconds. */
  datatype Duration = Duration(value: uint32)
  {
    /** Whole seconds as "Ns", "Nm Ns", "Nh Nm Ns" or "Nd Nh Nm Ns", without padding. */
    function Format(): (r: string)
      ensures |r| >= 2 && r[|r| - 1] == 's'
    {
      UnitText(value / 1000)
    }
  }

  /**
   * The text shows one unpadded token per component the duration needs and reads back as its
   * decomposition into days, hours, minutes and seconds.
   */
  lemma DurationFormatRoundTrip(d: Duration)
    ensures UnitWidths(d.value / 1000, Split(d.Format(), ' '))
    ensures ParseUnits(d.Format()) == Some(Decompose(d.value / 1000))
  {
    UnitRoundTrip(d.value / 1000);
  }

  /** The numerals of the example durations. */
  lemma SmallNumerals()
    ensures NatToString(0) == "0" && NatToString(1) == "1" && NatToString(2) == "2"
    ensures NatToString(3) == "3" && NatToString(5) == "5"
    ensures NatToString(15) == "15" && NatToString(30) == "30" && NatToString(45) == "45"
  {
    assert NatToString(15) == NatToString(1) + [DigitChar(5)];
    assert NatToString(30) == NatToString(3) + [DigitChar(0)];
    assert NatToString(45) == NatToString(4) + [DigitChar(5)];
  }

  /** Outputs the repository's tests expect: under a minute, and under an hour. */
  lemma DurationFormatExamples()
    ensures Duration(0).Format() == "0s"
    ensures Duration(999).Format() == "0s"
    ensures Duration(30000).Format() == "30s"
    ensures Duration(135000).Format() == "2m 15s"
  {
    SmallNumerals();
    assert 135000 / 1000 == 135 && 135 / 60 == 2 && 135 % 60 == 15;
  }

  /** Outputs the repository's tests expect: hours. */
  lemma DurationFormatHourExample()
    ensures Duration(5445000).Format() == "1h 30m 45s"
  {
    SmallNumerals();
    var s := 5445000 / 1000;
    assert s == 5445 && s / 3600 == 1 && s % 3600 == 1845;
    assert 1845 / 60 == 30 && 1845 % 60 == 45;
    assert UnitText(s) == NatToString(1) + "h " + NatToString(30) + "m " + NatToString(45) + "s";
  }

  /** Outputs the repository's tests expect: whole hours. */
  lemma DurationFormatWholeHourExample()
    ensures Duration(18000000).Format() == "5h 0m 0s"
  {
    SmallNumerals();
    var s := 18000000 / 1000;
    assert s == 18000 && s / 3600 == 5 && s % 3600 == 0;
    assert UnitText(s) == NatToString(5) + "h " + NatToString(0) + "m " + NatToString(0) + "s";
  }

  /** Outputs the repository's tests expect: days. */
  lemma DurationFormatDayExamples()
    ensures Duration(192615000).Format() == "2d 5h 30m 15s"
  {
    SmallNumerals();
    var s := 192615000 / 1000;
    assert s == 192615 && s / 86400 == 2 && s % 86400 == 19815;
    assert 19815 / 3600 == 5 && 19815 % 3600 == 1815;
    assert 1815 / 60 == 30 && 1815 % 60 == 15;
    assert UnitText(s) == NatToString(2) + "d " + NatToString(5) + "h " + NatToString(30) + "m " + NatToString(15) + "s";
  }

  /** Outputs the repository's tests expect: whole days. */
  lemma DurationFormatWholeDayExample()
    ensures Duration(259200000).Format() == "3d 0h 0m 0s"
  {
    SmallNumerals();
    var s := 259200000 / 1000;
    assert s == 259200 && s / 86400 == 3 && s % 86400 == 0;
    assert UnitText(s) == NatToString(3) + "d " + NatToString(0) + "h " + NatToString(0) + "m " + NatToString(0) + "s";
  }

  datatype DurationStats = DurationStats(total: Option<Duration>, active: Option<Duration>, pause: Option<Duration>)

  /** A distance in centimetres. */
  datatype Distance = Distance(value: uint32)
  {
    /** Metres below a kilometre; otherwise kilometres with `decimal` fraction digits (1 trimmed, other values whole). */
    function format(decimal: int, fixed: (nat, nat) -> string): (r: string)
      ensures var meters := value / 100;
        && (meters < 1000 ==>
              && |r| >= 2 && r[|r| - 1] == 'm'
              && Unpadded(r[..|r| - 1]) && ValueOf(r[..|r| - 1]) == meters)
        && (meters >= 1000 ==> |r| >= 2 && r[|r| - 2..] == "km")
        && (meters >= 1000 && decimal == 1 ==> r[..|r| - 2] == TrimFraction(fixed(meters, 1)))
        && (meters >= 1000 && (decimal == 2 || decimal == 3) ==> r[..|r| - 2] == fixed(meters, decimal))
        && (meters >= 1000 && decimal != 1 && decimal != 2 && decimal != 3 ==>
              Unpadded(r[..|r| - 2]) && ValueOf(r[..|r| - 2]) == meters / 1000)
    {
      var meters := value / 100;
      if meters >= 1000 then
        var d :=
          if decimal == 1 then TrimFraction(fixed(meters, 1))
          else if decimal == 2 then fixed(meters, 2)
          else if decimal == 3 then fixed(meters, 3)
          else NatToString(meters / 1000);
        assert (d + "km")[..|d|] == d;
        d + "km"
      else
        var t := NatToString(meters);
        assert (t + "m")[..|t|] == t;
        t + "m"
    }
  }

  /** With one fraction digit the kilometre text never ends in '.', and a kept '.' is followed by a nonzero last digit. */
  lemma DistanceFormatTrimmed(d: Distance, fixed: (nat, nat) -> string)
    requires d.value / 100 >= 1000
    requires IsFixedPoint(fixed(d.value / 100, 1))
    ensures var r := d.format(1, fixed);
      var km := r[..|r| - 2];
      && |km| > 0 && km[|km| - 1] != '.' && IsDigit(km[|km| - 1])
      && ('.' in km ==> '1' <= km[|km| - 1] <= '9')
      && km <= fixed(d.value / 100, 1)
  {
    TrimFractionShape(fixed(d.value / 100, 1));
  }

  /** The fields of a record that the modelled operations read. */
  datatype RecordData = RecordData(time: Time, distance: Option<Distance>)

  /** The fields of the decoded activity that the modelled operations read. */
  datatype ActivityData = ActivityData(
    duration: DurationStats,
    totalDistance: Option<Distance>,
    noSessions: uint32,
    records: seq<RecordData>)
  {
    function NoRecords(): nat
    {
      |records|
    }

    /** The time of the first record, absent without records. */
    function StartTime(): (r: Option<Time>)
      ensures r.None? <==> NoRecords() == 0
      ensures r.Some? ==> r.value == records[0].time
    {
      if NoRecords() == 0 then None else Some(records[0].time)
    }

    /** The time of the last record, absent without records. */
    function FinishTime(): (r: Option<Time>)
      ensures r.None? <==> NoRecords() == 0
      ensures r.Some? ==> r.value == records[|records| - 1].time
    {
      if NoRecords() == 0 then None
      else
        var last := if NoRecords() - 1 > 0 then NoRecords() - 1 else 0;
        Some(records[last].time)
    }
  }

  /** With a single record, start and finish are both that record's time. */
  lemma StartFinishOneRecord(ad: ActivityData)
    requires ad.NoRecords() == 1
    ensures ad.StartTime() == ad.FinishTime() == Some(ad.records[0].time)
  {
  }

  /** The error of a failed parse, as its message. */
  type Error = string

  type ActivityAD = AsyncData<Error, ActivityData>

  /** How many records are played per second: a fallback of one, or the record count over the total duration. */
  datatype Rate = Fallback | PerSecond(records: nat, millis: nat)

  /** The clamped cursor update: 0 without records, otherwise `index + value` kept within `[0, length - 1]`. */
  function ClampedIndex(index: int, value: int, length: nat): (r: int)
    ensures length == 0 ==> r == 0
    ensures length > 0 ==> 0 <= r < length
    ensures length > 0 && 0 <= index + value < length ==> r == index + value
    ensures length > 0 && index + value >= length ==> r == length - 1
    ensures length > 0 && index + value < 0 ==> r == 0
  {
    if length == 0 then 0
    else
      var next := index + value;
      var max := length - 1;
      if next > max then max else if next < 0 then 0 else next
  }

  /** Moving forward by n and back by n returns to the start when neither step reaches a bound. */
  lemma ClampedIndexRoundTrip(index: int, n: int, length: nat)
    requires 0 <= index < length
    requires 0 <= index + n < length
    ensures ClampedIndex(ClampedIndex(index, n, length), -n, length) == index
  {
  }

  /** Clamping is idempotent: an index already in range stays where it is for a zero step. */
  lemma ClampedIndexZeroStep(index: int, length: nat)
    requires 0 <= index < length
    ensures ClampedIndex(index, 0, length) == index
  {
  }

  /** With a single record every step lands on 0. */
  lemma ClampedIndexOneRecord(index: int, value: int)
    ensures ClampedIndex(index, value, 1) == 0
  {
  }

  class Activity {
    var path: string
    /** Index of the currently selected record. */
    var recordIndex: int
    var data: ActivityAD

    constructor(path: string, data: ActivityAD)
      ensures this.path == path && this.data == data && recordIndex == 0
    {
      this.path := path;
      this.data := data;
      recordIndex := 0;
    }

    /** The total distance of a successful parse that has one, and 0 otherwise. */
    function TotalDistance(): (r: Distance)
      reads this
      ensures IsSuccess(data) && Success(data).0.value.totalDistance.Some?
        ==> r == Success(data).0.value.totalDistance.value
      ensures !(IsSuccess(data) && Success(data).0.value.totalDistance.Some?) ==> r.value == 0
    {
      var (d, ok) := Success(data);
      if ok && d.value.totalDistance.Some? then d.value.totalDistance.value else Distance(0)
    }

    /** The start time of a successful parse with records, and absent otherwise. */
    function StartTime(): (r: Option<Time>)
      reads this
      ensures r.Some? <==> IsSuccess(data) && Success(data).0.value.NoRecords() > 0
      ensures r.Some? ==> r.value == Success(data).0.value.records[0].time
    {
      var (d, ok) := Success(data);
      if ok then d.value.StartTime() else None
    }

    /** The total duration of a successful parse that has one, and zero otherwise. */
    function GetTotalDuration(): (r: Duration)
      reads this
      ensures IsSuccess(data) && Success(data).0.value.duration.total.Some?
        ==> r == Success(data).0.value.duration.total.value
      ensures !(IsSuccess(data) && Success(data).0.value.duration.total.Some?) ==> r.value == 0
    {
      var total := Duration(0);
      var (d, ok) := Success(data);
      if ok && d.value.duration.total.Some? then
        Duration(AddUint32(total.value, d.value.duration.total.value.value))
      else total
    }

    /** Records per second: the fallback unless the parse succeeded with a positive total duration and records. */
    function RPS(): (r: Rate)
      reads this
      ensures r.Fallback? <==>
        !(IsSuccess(data)
          && Success(data).0.value.duration.total.Some?
          && Success(data).0.value.duration.total.value.value > 0
          && Success(data).0.value.NoRecords() > 0)
      ensures r.PerSecond? ==>
        r.records == Success(data).0.value.NoRecords()
        && r.millis == Success(data).0.value.duration.total.value.value
    {
      var (d, ok) := Success(data);
      if ok && d.value.duration.total.Some? then
        var totalDurationMs := d.value.duration.total.value.value;
        var recordCount := d.value.NoRecords();
        if totalDurationMs > 0 && recordCount > 0 then PerSecond(recordCount, totalDurationMs)
        else Fallback
      else Fallback
    }

    /** Moves the record cursor by `value`, clamped to the records; refused unless the parse succeeded. */
    method CountRecordIndex(value: int) returns (ok: bool)
      modifies this`recordIndex
      ensures ok <==> IsSuccess(data)
      ensures ok ==> recordIndex == ClampedIndex(old(recordIndex), value, Success(data).0.value.NoRecords())
      ensures !ok ==> recordIndex == old(recordIndex)
    {
      var (d, success) := Success(data);
      if success {
        var length := |d.value.records|;
        if length == 0 {
          recordIndex := 0;
          return true;
        }
        var index := recordIndex + value;
        var max := length - 1;
        if index > max {
          recordIndex := max;
        } else if index < 0 {
          recordIndex := 0;
        } else {
          recordIndex := index;
        }
        return true;
      }
      return false;
    }

    /** Puts the record cursor back on the first record. */
    method ResetRecordIndex()
      modifies this`recordIndex
      ensures recordIndex == 0
    {
      recordIndex := 0;
    }
  }

  /** The two comparators of the activity list. */
  datatype SortBy = SortByDistance | SortByTime

  /** The value a comparator orders by: the total distance, or the start time with 1970 for none. */
  function SortKey(sortBy: SortBy, act: Activity): int
    reads act
  {
    match sortBy
    case SortByDistance => act.TotalDistance().value
    case SortByTime => (if act.StartTime().Some? then act.StartTime().value else DefaultTime).value
  }

  /** The comparators `SortByDistance` and `SortByTime`: strictly smaller distance, strictly earlier start. */
  predicate Less(sortBy: SortBy, act1: Activity, act2: Activity)
    reads act1, act2
    ensures Less(sortBy, act1, act2) <==> SortKey(sortBy, act1) < SortKey(sortBy, act2)
  {
    match sortBy
    case SortByDistance => act1.TotalDistance().value < act2.TotalDistance().value
    case SortByTime =>
      var start1 := if act1.StartTime().Some? then act1.StartTime().value else DefaultTime;
      var start2 := if act2.StartTime().Some? then act2.StartTime().value else DefaultTime;
      Before(start1, start2)
  }

  /** Two neighbours in the wanted order: non-decreasing keys, or non-increasing when reversed. */
  predicate InOrder(sortBy: SortBy, reversed: bool, act1: Activity, act2: Activity)
    reads act1, act2
  {
    if reversed then SortKey(sortBy, act2) <= SortKey(sortBy, act1) else SortKey(sortBy, act1) <= SortKey(sortBy, act2)
  }

  /** `sort.Reverse` swaps the arguments of `Less`. */
  predicate SorterLess(sortBy: SortBy, reversed: bool, act1: Activity, act2: Activity)
    reads act1, act2
  {
    if reversed then Less(sortBy, act2, act1) else Less(sortBy, act1, act2)
  }

  /** `actSorter.Swap`: exchanges two pointers of the slice and nothing else. */
  method Swap(acts: array<Activity>, i: nat, j: nat)
    requires i < acts.Length && j < acts.Length
    modifies acts
    ensures acts[i] == old(acts[j]) && acts[j] == old(acts[i])
    ensures forall k :: 0 <= k < acts.Length && k != i && k != j ==> acts[k] == old(acts[k])
    ensures multiset(acts[..]) == multiset(old(acts[..]))
  {
    ghost var before := acts[..];
    acts[i], acts[j] := acts[j], acts[i];
    assert acts[..] == before[i := before[j]][j := before[i]];
  }

  /** `sort.Sort` over an `actSorter`: rearranges the pointers, through `Less` and `Swap` only, into order. */
  method SortActs(acts: array<Activity>, sortBy: SortBy, reversed: bool)
    modifies acts
    ensures multiset(acts[..]) == multiset(old(acts[..]))
    ensures forall i, j :: 0 <= i < j < acts.Length ==> InOrder(sortBy, reversed, acts[i], acts[j])
  {
    var n := 0;
    while n < acts.Length
      invariant 0 <= n <= acts.Length
      invariant multiset(acts[..]) == multiset(old(acts[..]))
      invariant forall i, j :: 0 <= i < j < n ==> InOrder(sortBy, reversed, acts[i], acts[j])
    {
      InsertLast(acts, n, sortBy, reversed);
      n := n + 1;
    }
  }

  /** One insertion step: moves `acts[n]` down past every neighbour it sorts before, so `acts[..n + 1]` is in order. */
  method InsertLast(acts: array<Activity>, n: nat, sortBy: SortBy, reversed: bool)
    requires n < acts.Length
    requires forall i, j :: 0 <= i < j < n ==> InOrder(sortBy, reversed, acts[i], acts[j])
    modifies acts
    ensures multiset(acts[..]) == multiset(old(acts[..]))
    ensures forall i, j :: 0 <= i < j <= n ==> InOrder(sortBy, reversed, acts[i], acts[j])
  {
    var k := n;
    while k > 0 && SorterLess(sortBy, reversed, acts[k], acts[k - 1])
      invariant 0 <= k <= n
      invariant multiset(acts[..]) == multiset(old(acts[..]))
      invariant forall i, j :: 0 <= i < j <= n && i != k && j != k ==> InOrder(sortBy, reversed, acts[i], acts[j])
      invariant forall j :: k < j <= n ==> InOrder(sortBy, reversed, acts[k], acts[j])
    {
      Swap(acts, k - 1, k);
      k := k - 1;
    }
  }

  /** `SortBy.Sort`: ascending by the comparator's key. */
  method Sort(sortBy: SortBy, acts: array<Activity>)
    modifies acts
    ensures multiset(acts[..]) == multiset(old(acts[..]))
    ensures forall i, j :: 0 <= i < j < acts.Length ==> SortKey(sortBy, acts[i]) <= SortKey(sortBy, acts[j])
  {
    SortActs(acts, sortBy, false);
  }

  /** `SortBy.Reverse`: descending by the comparator's key. */
  method Reverse(sortBy: SortBy, acts: array<Activity>)
    modifies acts
    ensures multiset(acts[..]) == multiset(old(acts[..]))
    ensures forall i, j :: 0 <= i < j < acts.Length ==> SortKey(sortBy, acts[j]) <= SortKey(sortBy, acts[i])
  {
    SortActs(acts, sortBy, true);
  }
}
