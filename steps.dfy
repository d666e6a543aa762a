/** An ordered list of setup steps, each with a "finished" flag, and the rule
    that picks the step the store-setup wizard must show next: the first
    step, in list order, that is not finished. */
module Steps {

  datatype Option<T> = None | Some(value: T)

  /** One entry of the ordered map from step number to finished flag. */
  datatype StepStatus = StepStatus(step: int, finished: bool)

  /** Every step of the list is finished. */
  predicate AllFinished(status: seq<StepStatus>)
  {
    forall i :: 0 <= i < |status| ==> status[i].finished
  }

  /** Position k holds an unfinished step and every step before it is finished. */
  predicate IsFirstUnfinished(status: seq<StepStatus>, k: int)
  {
    && 0 <= k < |status|
    && !status[k].finished
    && forall j :: 0 <= j < k ==> status[j].finished
  }

  /** The step numbers grow strictly along the list. */
  predicate StrictlyAscending(status: seq<StepStatus>)
  {
    forall i, j :: 0 <= i < j < |status| ==> status[i].step < status[j].step
  }

  /** Position of the first unfinished step, or |status| when there is none. */
  function FirstUnfinishedIndex(status: seq<StepStatus>): (k: nat)
    ensures k <= |status|
    ensures k == |status| <==> AllFinished(status)
    ensures k < |status| ==> IsFirstUnfinished(status, k)
  {
    if status == [] then 0
    else if !status[0].finished then 0
    else 1 + FirstUnfinishedIndex(status[1..])
  }

  /** The step number of the first unfinished step, None when all are finished. */
  function FirstUnfinished(status: seq<StepStatus>): (r: Option<int>)
    ensures r == None <==> AllFinished(status)
    ensures r.Some? ==> exists k :: IsFirstUnfinished(status, k) && status[k].step == r.value
  {
    var k := FirstUnfinishedIndex(status);
    if k < |status| then Some(status[k].step) else None
  }

  /** There is only one first unfinished position. */
  lemma FirstUnfinishedUnique(status: seq<StepStatus>, k: int)
    requires IsFirstUnfinished(status, k)
    ensures FirstUnfinishedIndex(status) == k
    ensures FirstUnfinished(status) == Some(status[k].step)
  {
  }

  /** On a list whose step numbers ascend, the chosen step is the smallest
      unfinished step number. */
  lemma FirstUnfinishedIsSmallest(status: seq<StepStatus>)
    requires StrictlyAscending(status)
    ensures FirstUnfinished(status).Some? ==>
      forall i :: 0 <= i < |status| && !status[i].finished ==>
        FirstUnfinished(status).value <= status[i].step
  {
    var k := FirstUnfinishedIndex(status);
    if k < |status| {
      forall i | 0 <= i < |status| && !status[i].finished
        ensures status[k].step <= status[i].step
      {
        assert k <= i;
      }
    }
  }
}
