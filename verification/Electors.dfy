/** What the two lock packages share of an elector's life. */
module Electors {

  datatype Phase = NotStarted | Running | Cancelled | Deleting | Resigned

  /** Inside the renewal loop a phase changes only by being cancelled. */
  predicate StaysInLoop(p: Phase, p': Phase) {
    (p.Running? || p.Cancelled?) && (p' == p || p'.Cancelled?)
  }

  /** What the world does around one backend call, and whether its answer is lost. */
  datatype Turn<Action> = Turn(env: seq<Action>, lost: bool)
}
