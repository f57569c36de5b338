/** The commit data both reports work on, once the GitHub response is parsed
    and each author timestamp is placed on the calendar. */
module Commits {

  /** A calendar date, as the number of days before the day the command runs:
      0 is today, k is k days ago, a negative number a later date. Two commits
      share a 'YYYY-MM-DD' key exactly when they share a Day. */
  type Day = int

  /** The two fields a report reads of a commit: `commit.author.date`, as its
      Day, and `commit.message`. */
  datatype Commit = Commit(day: Day, message: string)
}
