/** What becomes of a transaction, shared by the two repositories. */
module Fates {
  /** It commits, it is rolled back, or it commits and the answer is lost. */
  datatype Fate = Commits | RollsBack | AnswerLost
}
