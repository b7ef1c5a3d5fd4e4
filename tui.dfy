/**
 * The import sequence of the terminal interface: the model keeps one slot per FIT file, parses the
 * files one after another and writes each result into the slot under its cursor.
 *
 * Each `Update` branch that changes the import state is one method of `Model`. The list widget, the
 * spinner and the rendering are not modelled; the background parse is a `ParseResult` handed to
 * `ResolveParse`, and its outcome reaches the model as the argument of `OnParseResult`.
 */
module Tui {
  import opened Wrappers
  import opened Asyncdata
  import opened CommonTypes
  import TuiUtils

  /** What `fit.ParseFile` hands back for one path: an error, or the activity data. */
  datatype ParseResult = ParseFailed(err: Error) | Parsed(data: ActivityData)

  /** The background parse: the activity keeps its path and becomes `Failure(err)` or `Success(data)`. */
  function ResolveParse(act: Activity, res: ParseResult): (r: Activity)
    ensures r.path == act.path
    ensures IsFailure(r.data.asyncData) <==> res.ParseFailed?
    ensures IsSuccess(r.data.asyncData) <==> res.Parsed?
    ensures res.ParseFailed? ==> Failure(r.data.asyncData).0 == Some(res.err)
    ensures res.Parsed? ==> Success(r.data.asyncData).0 == Some(res.data)
  {
    match res
    case ParseFailed(err) => Activity(act.path, ActivityAD(NewFailure(err)))
    case Parsed(data) => Activity(act.path, ActivityAD(NewSuccess(data)))
  }

  /** A slot whose parse has come back. */
  predicate Resolved(act: Activity)
  {
    IsSuccess(act.data.asyncData) || IsFailure(act.data.asyncData)
  }

  /** Every parse outcome is a resolved slot. */
  lemma ResolveParseResolves(act: Activity, res: ParseResult)
    ensures Resolved(ResolveParse(act, res))
    ensures !NotAsked(ResolveParse(act, res).data.asyncData) && !IsLoading(ResolveParse(act, res).data.asyncData)
  {
    ExactlyOneState(ResolveParse(act, res).data.asyncData);
  }

  /** A slot that has not been asked for yet: its path and the initial state. */
  function NotAskedSlot(path: string): (r: Activity)
    ensures r.path == path && NotAsked(r.data.asyncData)
  {
    Activity(path, ActivityAD(NewNotAsked()))
  }

  /** A slot whose parse has been started, with no data from an earlier parse. */
  function LoadingSlot(path: string): (r: Activity)
    ensures r.path == path && Loading(r.data.asyncData) == (None, false, true)
  {
    Activity(path, ActivityAD(NewLoading(None)))
  }

  class Model {
    var importPath: string
    var importIndex: int
    var activities: seq<Activity>
    var errMsgs: seq<Error>

    /**
     * The import invariant: the cursor is inside the slots (or 0 when there are none), every slot
     * before it has a result, and every slot after it is still not asked for.
     */
    predicate Progress()
      reads this
    {
      && 0 <= importIndex
      && (activities == [] ==> importIndex == 0)
      && (activities != [] ==> importIndex < |activities|)
      && (forall k :: 0 <= k < importIndex && k < |activities| ==> Resolved(activities[k]))
      && (forall k :: importIndex < k < |activities| ==> NotAsked(activities[k].data.asyncData))
    }

    /** A model for the given import path with no slots and no errors. */
    constructor InitialModel(path: string)
      ensures importPath == path && importIndex == 0 && activities == [] && errMsgs == []
      ensures Progress()
    {
      importPath := path;
      importIndex := 0;
      activities := [];
      errMsgs := [];
    }

    /**
     * The reload key: unless a filter is being typed, the slots are cleared, the cursor goes
     * back to 0 and the file list is requested again (`reload`).
     */
    method OnReloadKey(settingFilter: bool) returns (reload: bool)
      modifies this`activities, this`importIndex
      ensures reload <==> !settingFilter
      ensures settingFilter ==> activities == old(activities) && importIndex == old(importIndex)
      ensures !settingFilter ==> activities == [] && importIndex == 0
      ensures old(Progress()) || !settingFilter ==> Progress()
    {
      reload := false;
      if !settingFilter {
        activities := [];
        importIndex := 0;
        reload := true;
      }
    }

    /**
     * The file list, as written: one not-asked slot per path, in order, then a loading copy of
     * the first slot to parse. The slot itself stays not asked. An empty list indexes out of range.
     */
    method OnFilesResult(paths: seq<string>) returns (first: Outcome<Activity>)
      modifies this`activities
      ensures |activities| == |paths|
      ensures forall i :: 0 <= i < |paths| ==> activities[i] == NotAskedSlot(paths[i])
      ensures first.Panics? <==> paths == []
      ensures paths != [] ==> first == Returns(LoadingSlot(paths[0]))
      ensures old(importIndex) == 0 ==> Progress()
    {
      var slots := new Activity[|paths|](_ => Activity("", ActivityAD(notAsked)));
      for i := 0 to |paths|
        invariant forall k :: 0 <= k < i ==> slots[k] == NotAskedSlot(paths[k])
      {
        slots[i] := NotAskedSlot(paths[i]);
      }
      activities := slots[..];
      if |activities| == 0 {
        return Panics("index out of range [0] with length 0");
      }
      var firstAct := activities[0];
      firstAct := Activity(firstAct.path, ActivityAD(NewLoading(None)));
      first := Returns(firstAct);
    }

    /** The file list with the empty case guarded: no slot to parse means no parse is started. */
    method OnFilesResultChecked(paths: seq<string>) returns (first: Option<Activity>)
      modifies this`activities
      ensures |activities| == |paths|
      ensures forall i :: 0 <= i < |paths| ==> activities[i] == NotAskedSlot(paths[i])
      ensures first.None? <==> paths == []
      ensures paths != [] ==> first == Some(LoadingSlot(paths[0]))
      ensures old(importIndex) == 0 ==> Progress()
    {
      var slots := new Activity[|paths|](_ => Activity("", ActivityAD(notAsked)));
      for i := 0 to |paths|
        invariant forall k :: 0 <= k < i ==> slots[k] == NotAskedSlot(paths[k])
      {
        slots[i] := NotAskedSlot(paths[i]);
      }
      activities := slots[..];
      if |activities| == 0 {
        return None;
      }
      first := Some(LoadingSlot(activities[0].path));
    }

    /**
     * A parse result, as written: it overwrites the slot under the cursor; unless that was the
     * last slot, the cursor moves on and the next slot becomes loading and is parsed (`next`).
     * A cursor outside the slots indexes out of range.
     */
    method OnParseResult(act: Activity) returns (next: Outcome<Option<Activity>>)
      modifies this`activities, this`importIndex
      ensures next.Panics? <==> !(0 <= old(importIndex) < |old(activities)|)
      ensures next.Panics? ==> activities == old(activities) && importIndex == old(importIndex)
      ensures next.Returns? && old(importIndex) < |old(activities)| - 1 ==>
        && importIndex == old(importIndex) + 1
        && activities == old(activities)[old(importIndex) := act][importIndex := LoadingSlot(old(activities)[importIndex].path)]
        && next.value == Some(activities[importIndex])
      ensures next.Returns? && old(importIndex) == |old(activities)| - 1 ==>
        && importIndex == old(importIndex)
        && activities == old(activities)[old(importIndex) := act]
        && next.value == None
      ensures old(Progress()) && Resolved(act) ==> Progress()
    {
      var i := importIndex;
      if !(0 <= i < |activities|) {
        return Panics("index out of range");
      }
      activities := activities[i := act];
      next := Returns(None);
      if i < |activities| - 1 {
        importIndex := importIndex + 1;
        activities := activities[importIndex := LoadingSlot(activities[importIndex].path)];
        next := Returns(Some(activities[importIndex]));
      }
    }

    /** A parse result with a cursor outside the slots dropped, as happens after a reload. */
    method OnParseResultChecked(act: Activity) returns (next: Option<Activity>)
      modifies this`activities, this`importIndex
      ensures !(0 <= old(importIndex) < |old(activities)|) ==>
        activities == old(activities) && importIndex == old(importIndex) && next == None
      ensures 0 <= old(importIndex) < |old(activities)| - 1 ==>
        && importIndex == old(importIndex) + 1
        && activities == old(activities)[old(importIndex) := act][importIndex := LoadingSlot(old(activities)[importIndex].path)]
        && next == Some(activities[importIndex])
      ensures 0 <= old(importIndex) && old(importIndex) == |old(activities)| - 1 ==>
        && importIndex == old(importIndex)
        && activities == old(activities)[old(importIndex) := act]
        && next == None
      ensures old(Progress()) && Resolved(act) ==> Progress()
    {
      var i := importIndex;
      next := None;
      if 0 <= i < |activities| {
        activities := activities[i := act];
        if i < |activities| - 1 {
          importIndex := importIndex + 1;
          activities := activities[importIndex := LoadingSlot(activities[importIndex].path)];
          next := Some(activities[importIndex]);
        }
      }
    }

    /** An error message is appended after all earlier ones. */
    method OnErr(e: Error)
      modifies this`errMsgs
      ensures errMsgs == old(errMsgs) + [e]
    {
      errMsgs := errMsgs + [e];
    }
  }

  /**
   * Three files whose second one fails: after the three results the slots hold success, failure and
   * success, in path order, the cursor rests on the last slot and nothing is loading.
   */
  method ImportThreeFiles(a: string, b: string, c: string, d1: ActivityData, err: Error, d3: ActivityData)
    returns (acts: seq<Activity>, index: int, parsed: int, failed: int, loading: bool)
    ensures acts == [Activity(a, ActivityAD(success(d1))),
                     Activity(b, ActivityAD(failure(err))),
                     Activity(c, ActivityAD(success(d3)))]
    ensures index == 2 && parsed == 2 && failed == 1 && !loading
  {
    var m := new Model.InitialModel("rides");
    var first := m.OnFilesResult([a, b, c]);
    assert m.importIndex == 0 && |m.activities| == 3;
    var r1 := ResolveParse(first.value, Parsed(d1));
    var second := m.OnParseResult(r1);
    assert m.importIndex == 1 && |m.activities| == 3;
    assert m.activities[0] == r1;
    var r2 := ResolveParse(second.value.value, ParseFailed(err));
    var third := m.OnParseResult(r2);
    assert m.importIndex == 2 && |m.activities| == 3;
    assert m.activities[0] == r1 && m.activities[1] == r2;
    var r3 := ResolveParse(third.value.value, Parsed(d3));
    var done := m.OnParseResult(r3);
    acts := m.activities;
    index := m.importIndex;
    assert acts == [r1, r2, r3];
    SuccessFailureSuccessCounts(acts);
    parsed := TuiUtils.ActivitiesSuccess(acts);
    failed := TuiUtils.ActivitiesFailures(acts);
    loading := TuiUtils.ActivitiesAreLoading(acts);
  }

  /** Success, failure, success: two parsed, one failed, none loading. */
  lemma SuccessFailureSuccessCounts(acts: seq<Activity>)
    requires |acts| == 3
    requires acts[0].data.asyncData.success? && acts[1].data.asyncData.failure? && acts[2].data.asyncData.success?
    ensures TuiUtils.CountSuccess(acts) == 2 && TuiUtils.CountFailure(acts) == 1
    ensures forall i :: 0 <= i < |acts| ==> !IsLoading(acts[i].data.asyncData)
  {
    assert acts[..0] == [] && acts[..3] == acts;
    TuiUtils.CountStep(acts, 0);
    TuiUtils.CountStep(acts, 1);
    TuiUtils.CountStep(acts, 2);
  }

  /** A directory without FIT files yields an empty path list, and the file-list branch panics. */
  method EmptyDirectoryPanics() returns (first: Outcome<Activity>)
    ensures first.Panics?
  {
    var m := new Model.InitialModel("empty");
    first := m.OnFilesResult([]);
  }

  /** The same empty list with the guard starts no parse and keeps the invariant. */
  method EmptyDirectoryChecked() returns (first: Option<Activity>, progress: bool)
    ensures first == None && progress
  {
    var m := new Model.InitialModel("empty");
    first := m.OnFilesResultChecked([]);
    progress := m.Progress();
  }

  /** Reloading while a parse is running clears the slots, so the late result indexes out of range. */
  method ReloadDuringParsePanics(data: ActivityData) returns (next: Outcome<Option<Activity>>)
    ensures next.Panics?
  {
    var m := new Model.InitialModel("rides");
    var first := m.OnFilesResult(["a.fit"]);
    var reload := m.OnReloadKey(false);
    next := m.OnParseResult(ResolveParse(first.value, Parsed(data)));
  }

  /** With the guard the late result is dropped and the cleared model keeps the invariant. */
  method ReloadDuringParseChecked(data: ActivityData) returns (next: Option<Activity>, acts: seq<Activity>, progress: bool)
    ensures next == None && acts == [] && progress
  {
    var m := new Model.InitialModel("rides");
    var first := m.OnFilesResultChecked(["a.fit"]);
    var reload := m.OnReloadKey(false);
    next := m.OnParseResultChecked(ResolveParse(first.value, Parsed(data)));
    acts := m.activities;
    progress := m.Progress();
  }
}
