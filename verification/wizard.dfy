/** Step navigation: the active step is derived from the current path by the
    first step path it starts with, and Back/Next navigate to the
    neighbouring step path, staying put at either end. */
module Wizard {
  import opened Wrappers

  const StepPaths: seq<string> := ["/apply/step-1", "/apply/step-2", "/apply/step-3"]

  const LastStep: nat := |StepPaths| - 1

  /** `s.startsWith(p)`. */
  predicate StartsWith(s: string, p: string) {
    |p| <= |s| && s[..|p|] == p
  }

  /** `paths.findIndex(p => pathname.startsWith(p))`, searching from `from`. */
  function FindIndex(paths: seq<string>, pathname: string, from: nat): (r: int)
    requires from <= |paths|
    ensures r == -1 || from <= r < |paths|
    ensures r != -1 ==> StartsWith(pathname, paths[r])
    ensures r != -1 ==> forall j | from <= j < r :: !StartsWith(pathname, paths[j])
    ensures r == -1 ==> forall j | from <= j < |paths| :: !StartsWith(pathname, paths[j])
    decreases |paths| - from
  {
    if from == |paths| then -1
    else if StartsWith(pathname, paths[from]) then from
    else FindIndex(paths, pathname, from + 1)
  }

  /** The index of the first step path `pathname` starts with, or 0. */
  function GetStepIndex(pathname: string): (i: nat)
    ensures i <= LastStep
    ensures (exists j | 0 <= j < |StepPaths| :: StartsWith(pathname, StepPaths[j])) ==>
      StartsWith(pathname, StepPaths[i]) && forall j | 0 <= j < i :: !StartsWith(pathname, StepPaths[j])
    ensures (forall j | 0 <= j < |StepPaths| :: !StartsWith(pathname, StepPaths[j])) ==> i == 0
  {
    var index := FindIndex(StepPaths, pathname, 0);
    if index == -1 then 0 else index
  }

  /** Each step path is recognised as its own step. */
  lemma StepPathIndex(i: nat)
    requires i < |StepPaths|
    ensures GetStepIndex(StepPaths[i]) == i
  {
    assert StartsWith(StepPaths[i], StepPaths[i]);
    forall j | 0 <= j < i
      ensures !StartsWith(StepPaths[i], StepPaths[j])
    {
      assert StepPaths[i][12] != StepPaths[j][12];
    }
  }

  /** `goPrev`: the path to navigate to, if any. */
  function GoPrev(pathname: string): (r: Option<string>)
    ensures r.Some? <==> GetStepIndex(pathname) > 0
    ensures r.Some? ==> r.value in StepPaths
    ensures r.Some? ==> GetStepIndex(r.value) == GetStepIndex(pathname) - 1
  {
    var active := GetStepIndex(pathname);
    if active > 0 then StepPathIndex(active - 1); Some(StepPaths[active - 1]) else None
  }

  /** `goNext`: the path to navigate to, if any. */
  function GoNext(pathname: string): (r: Option<string>)
    ensures r.Some? <==> GetStepIndex(pathname) < LastStep
    ensures r.Some? ==> r.value in StepPaths
    ensures r.Some? ==> GetStepIndex(r.value) == GetStepIndex(pathname) + 1
  {
    var active := GetStepIndex(pathname);
    if active < |StepPaths| - 1 then StepPathIndex(active + 1); Some(StepPaths[active + 1]) else None
  }

  /** The path after a navigation request: unchanged when there is none. */
  function Navigate(pathname: string, target: Option<string>): string {
    target.GetOr(pathname)
  }

  function Back(pathname: string): string { Navigate(pathname, GoPrev(pathname)) }

  function Next(pathname: string): string { Navigate(pathname, GoNext(pathname)) }

  lemma BackMovesOneStep(pathname: string)
    ensures GetStepIndex(pathname) == 0 ==> Back(pathname) == pathname
    ensures GetStepIndex(pathname) > 0 ==>
      GetStepIndex(Back(pathname)) == GetStepIndex(pathname) - 1
  {}

  lemma NextMovesOneStep(pathname: string)
    ensures GetStepIndex(pathname) == LastStep ==> Next(pathname) == pathname
    ensures GetStepIndex(pathname) < LastStep ==>
      GetStepIndex(Next(pathname)) == GetStepIndex(pathname) + 1
  {}

  /** Next then Back returns to the same step: no step is skipped. */
  lemma BackUndoesNext(pathname: string)
    requires GetStepIndex(pathname) < LastStep
    ensures GetStepIndex(Back(Next(pathname))) == GetStepIndex(pathname)
  {}

  /** Sample paths: outside the step paths the index is 0, and a path below
      a step path takes that step's index. */
  lemma UnknownPathIsFirstStep()
    ensures GetStepIndex("/apply") == 0
    ensures GetStepIndex("/") == 0
    ensures GetStepIndex("/apply/step-2/review") == 1
  {
    assert StartsWith("/apply/step-2/review", StepPaths[1]);
    assert !StartsWith("/apply/step-2/review", StepPaths[0]) by {
      assert "/apply/step-2/review"[12] != StepPaths[0][12];
    }
  }
}
