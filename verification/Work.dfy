/** How far the execution of a key got. */
module Work {
  import opened Wrappers

  /** The items of every run: stage, run, position. */
  type Work<T> = seq<seq<seq<T>>>

  /** How far a key got: to stage `stop`, where run `b` completed if `fail[b]` is
      `None`, and else failed behind that many items. `stop` is past the last
      stage if nothing failed. */
  datatype Outcome = Outcome(stop: nat, fail: seq<Option<nat>>)

  /** A diverted key isn't executed at all. */
  datatype Progress = Untouched | Reached(outcome: Outcome)

  ghost predicate OutcomeOk<T>(work: Work<T>, out: Outcome) {
    && out.stop <= |work|
    && (out.stop == |work| ==> out.fail == [])
    && (out.stop < |work| ==>
          && |out.fail| == |work[out.stop]|
          && (exists b :: 0 <= b < |out.fail| && out.fail[b].Some?)
          && forall b :: 0 <= b < |out.fail| && out.fail[b].Some? ==> out.fail[b].value < |work[out.stop][b]|)
  }

  ghost predicate ProgressOk<T>(work: Work<T>, progress: Progress) {
    progress.Reached? ==> OutcomeOk(work, progress.outcome)
  }

  /** How many items of run `b` of stage `g` were handled. */
  function DoneCount<T>(work: Work<T>, progress: Progress, g: nat, b: nat): (n: nat)
    requires g < |work| && b < |work[g]|
    ensures n <= |work[g][b]|
  {
    match progress
    case Untouched => 0
    case Reached(out) =>
      if g < out.stop then |work[g][b]|
      else if g == out.stop && b < |out.fail| then
        (if out.fail[b].Some? && out.fail[b].value <= |work[g][b]| then out.fail[b].value else |work[g][b]|)
      else 0
  }

  /** The items of a run that were handled. */
  function Handled<T>(work: Work<T>, progress: Progress, g: nat, b: nat): seq<T>
    requires g < |work| && b < |work[g]|
  {
    work[g][b][..DoneCount(work, progress, g, b)]
  }

  /** The items of a run that are still to be handled. */
  function Left<T>(work: Work<T>, progress: Progress, g: nat, b: nat): seq<T>
    requires g < |work| && b < |work[g]|
  {
    work[g][b][DoneCount(work, progress, g, b)..]
  }

  /** The items of the first `b` runs of a stage, run by run. */
  ghost function StageItems<T>(stage: seq<seq<T>>): seq<T> {
    if stage == [] then [] else StageItems(stage[..|stage| - 1]) + stage[|stage| - 1]
  }

  ghost function AllItems<T>(work: Work<T>): seq<T> {
    if work == [] then [] else AllItems(work[..|work| - 1]) + StageItems(work[|work| - 1])
  }
}
