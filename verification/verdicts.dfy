/** Verdicts: two queue states, and the terminal results. */
module Verdicts {
  datatype Verdict = Pending | Judging | AC | WA | TLE | MLE | RE | CE | OLE | IE | AB

  predicate Waiting(v: Verdict) {
    v == Pending || v == Judging
  }

  /** What a test or a whole run can come to. */
  type Terminal = v: Verdict | !Waiting(v) witness AC
}
