/** The `!commits` command: the three latest commits (index.js:52-69). */
module Recent {
  import opened Text
  import opened Commits

  /** `(i + 1) + '. ' + commitDate + ' - ' + commit.commit.message`, with the
      commit's 'YYYY-MM-DD' date given by `isoDate`. */
  function Item(position: nat, commit: Commit, isoDate: Day -> string): string {
    Decimal(position) + ". " + isoDate(commit.day) + " - " + commit.message
  }

  /** The items for the first three commits, numbered 1 to 3. */
  function Items(commits: seq<Commit>, isoDate: Day -> string): seq<string>
    requires 3 <= |commits|
  {
    seq(3, i requires 0 <= i < 3 => Item(i + 1, commits[i], isoDate))
  }

  /** The message the command sends. */
  function RecentText(commits: seq<Commit>, isoDate: Day -> string): string
    requires 3 <= |commits|
  {
    "Last 3 commits:\n" + Join(Items(commits, isoDate))
  }

  /** The callback: a fixed loop of three pushes into `commitMessages`, then
      the 'No commits!' test and the joined report. The loop always pushes
      three items, so the 'No commits!' text is never the result. */
  method RecentReport(commits: seq<Commit>, isoDate: Day -> string) returns (report: string)
    requires 3 <= |commits|
    ensures report == RecentText(commits, isoDate)
    ensures report != "No commits!"
  {
    var commitMessages: seq<string> := [];
    for i := 0 to 3
      invariant commitMessages == Items(commits, isoDate)[..i]
    {
      var commit := commits[i];
      var msg := Decimal(i + 1) + ". " + isoDate(commit.day) + " - " + commit.message;
      commitMessages := commitMessages + [msg];
    }
    assert commitMessages == Items(commits, isoDate);
    report := if |commitMessages| == 0 then "No commits!"
              else "Last 3 commits:\n" + Join(commitMessages);
  }

  /** Without line breaks in the dates and messages, the report reads as
      the header and then exactly three lines, numbered 1, 2 and 3, for the
      first three commits in the order the response lists them. */
  lemma RecentLayout(commits: seq<Commit>, isoDate: Day -> string)
    requires 3 <= |commits|
    requires forall i :: 0 <= i < 3 ==> NoNewline(isoDate(commits[i].day)) && NoNewline(commits[i].message)
    ensures Split(RecentText(commits, isoDate))
         == ["Last 3 commits:", Item(1, commits[0], isoDate), Item(2, commits[1], isoDate), Item(3, commits[2], isoDate)]
  {
    var items := Items(commits, isoDate);
    forall i | 0 <= i < 3
      ensures NoNewline(items[i])
    {
      assert NoNewline(Decimal(i + 1));
    }
    SplitJoin(items);
    SplitLine("Last 3 commits:", Join(items));
    assert "Last 3 commits:\n" + Join(items) == "Last 3 commits:" + "\n" + Join(items);
  }
}
