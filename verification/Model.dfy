/** Types that several parts of the program share. */
module Model {
  datatype InboxStatus = Received | Processed | Failed

  /** A pull request a rule may act on, under the key of the skill that is to run. */
  datatype Candidate = Candidate(number: nat, headSha: string, headRef: string, author: string,
                                 isCrossRepository: bool, isDraft: bool, skillKey: string)
}
