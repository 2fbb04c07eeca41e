/** The fields of an Interview document that the recommendation and matching services read.
    The Interview model itself is not part of this model; its documents reach the services as
    query results, here sequences of these records. */
module Interviews {
  import opened Wrappers
  import opened Numeric

  /** `config.targetCompany`, `config.interviewType`, `result.overallScore` (each may be absent)
      and `createdAt`. */
  datatype Interview = Interview(
    targetCompany: Option<string>,
    interviewType: Option<string>,
    overallScore: Option<real>,
    createdAt: Time)

  /** `i.result?.overallScore || 0`: an absent score counts as 0. */
  function ScoreOrZero(i: Interview): (r: real)
    ensures i.overallScore.None? ==> r == 0.0
    ensures i.overallScore.Some? ==> r == i.overallScore.value
  {
    match i.overallScore
    case Some(v) => v
    case None => 0.0
  }
}
