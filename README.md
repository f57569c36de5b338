# Commit reports of the LCTV bot GitHub plugin

The plugin adds two chat commands to a livecoding.tv bot. Both report on the
commits of the bot's GitHub repository.

- `!commits` posts the three latest commits as one message. The message is a
  header line, then one numbered line per commit giving its `YYYY-MM-DD` date
  and its message.
- `!commits summary X` posts a text graph of the commits over the last X weeks,
  with X clamped to at most 5. The window of 7X days is built walking back
  from today, one week at a time. Every day starts with a count of 0. Each
  commit adds one to its own date's count. Each week is rendered as one line:
  `startDate - endDate: ` followed by seven cells, ` _ ` for no commit and
  ` k ` for k commits.

The project has four modules:

- `Text`: the decimal text of a count, `join('\n')`, and how a chat message
  splits into the lines a reader sees.
- `Commits`: a commit, as its date and its message.
- `Summary`: the summary command. The window loops (`BuildWindow`), the
  bucketing loop (`Bucket`) and the rendering loops (`Render`) are methods.
  Each is proved against a specification function (`Window`/`Zeros`,
  `Bucketed`, `Lines`). What the command promises is proved about those
  functions as lemmas: the partition of the window into weeks, the count
  shown in every cell, the layout of the message, and what a commit outside
  the window does.
- `Recent`: the `!commits` callback, proved against `RecentText`, and the
  layout of its message.

Dates are whole days counted back from today: 0 is today, k is k days ago,
and a negative number is a day after today's local date. Such a day number
stands for the `YYYY-MM-DD` key the source builds with `moment`. Two
functions passed as parameters stand for the `MM/DD` label of a day (`short`)
and its `YYYY-MM-DD` text (`isoDate`).

A value stored in the `days` object is a `Value`: a number, or the `NaN` that
`undefined++` leaves behind. Reading a key that is not stored gives
`undefined` (`Summary.Lookup`), which is also a `Value`.

The labels of a week follow the code (index.js:95-100). `startDate` is the
label of the day visited first, which is the week's newest day. `endDate` is
the label of the day visited seventh, which is its oldest day. So each line
reads newest - oldest, the reverse of calendar order.

## Model

| member | source | states |
|---|---|---|
| Summary.WeekCount | index.js:77 | The number of weeks is the requested digit clamped from above to 5, and never more than either |
| Summary.BuildWindow | index.js:84-110 | The nested loops produce exactly `Window(n)` as `weeks` and register exactly the days 0 .. 7n-1, each with 0, in `days` |
| Summary.WindowWeek | index.js:87-110 | Week i has id i+1 and holds the seven days 7i .. 7i+6, newest first. startDate is the label of its newest day and endDate that of its oldest. A day is in it exactly when it lies in that range. The next week starts the day before this one ends |
| Summary.WindowPartition | index.js:87-110 | The weeks are disjoint and together cover exactly the days 0 .. 7n-1: a day is in week i exactly when i = d / 7 |
| Summary.ZerosAt | index.js:102-104 | A day is registered in `days` exactly when it was visited, and then holds 0 |
| Summary.ZerosSize | index.js:102-104 | `days` holds exactly 7n keys before bucketing |
| Summary.Bucket | index.js:114-117 | The bucketing loop leaves `days` equal to `Bucketed(days, commits)` |
| Summary.LookupBucketed | index.js:114-117 | After bucketing, every date holds its initial value incremented once per commit dated on it; a missing key stays undefined |
| Summary.BucketedSnoc | index.js:116 | Counting one more commit is exactly one `++` on its own date and changes no other key |
| Summary.WindowCount | index.js:112-117 | After bucketing, each day of the window holds the number of commits dated on it. A day outside the window holds NaN if some commit is dated on it, and is otherwise absent |
| Summary.CellRoundTrip | index.js:126-127 | Reading a rendered cell back gives the count it was rendered from, and gives no count for NaN or undefined |
| Summary.Render | index.js:122-131 | The rendering loops produce `Lines(weeks, days)`: one line per week in order, each ended by '\n' |
| Summary.ReadCellsOfCells | index.js:125-128 | A line's cells cut back into exactly one cell per key of the week, in the week's order |
| Summary.WeekCells | index.js:123-130 | Each week line holds exactly seven cells, and cell k of week i shows the number of commits dated on day 7i+k |
| Summary.LinesAgree | index.js:122-131 | The rendered lines depend only on the values stored under the window's days |
| Summary.OutsideCommitInvisible | index.js:114-131 | A commit dated outside the window changes no count inside it and no rendered line. It leaves NaN under its own date |
| Summary.HeaderWording | index.js:132-133 | The header says "week" exactly when there is one week and "weeks" otherwise |
| Summary.SummaryLayout | index.js:122-133 | The message reads as the header line, then one line per week (the most recent week first), then the empty text after the last '\n'. Week i's line is the label of day 7i, " - ", the label of day 7i+6, ": ", then the cells of its seven days |
| Summary.OneWeekNoCommits | index.js:76-134 | For one week and no commits, the message is "Commits for the last 1 week:", then the line from today's label to the label of six days ago with seven empty cells |
| Summary.SummaryCommand | index.js:76-134 | The whole action (clamp, window, bucketing, rendering, header) sends `SummaryMessage(digit, commits)` |
| Recent.RecentReport | index.js:55-68 | The callback sends "Last 3 commits:\n" followed by the first three commits' items joined by '\n'. It never sends "No commits!" |
| Recent.RecentLayout | index.js:56-68 | The report reads as the header line, then exactly three lines numbered 1, 2 and 3, for the first three commits in the order received |
| Text.Decimal | index.js:127 | The text of a count has at least one digit, only digits, and starts with '0' only for zero |
| Text.DecimalRoundTrip | index.js:127 | Reading the decimal text of a count gives the count back |
| Text.DecimalInjective | index.js:127 | Two counts render alike exactly when they are equal |
| Text.SplitJoin | index.js:68 | Lines without '\n', joined by '\n', split back into the same lines |
| Text.SplitTerminated | index.js:129 | Lines without '\n', each followed by '\n', split back into the same lines, then whatever follows |

## Left out

- `getCommitsFromGithub` (index.js:21-45) is not modelled. This covers the HTTPS request, the UTF-8 decoding, `JSON.parse` and GitHub's paging. The commits arrive as a parameter, in the order the response lists them. The `'…?' + parameters || ''` at index.js:26 parses as `(… + parameters) || ''`. That string is never empty, so the `|| ''` has no effect.
- Date parsing and formatting with `moment` are not modelled. This covers the `'YYYY-MM-DDThh:mm:ssZ'` parse, the time zone, and the `MM/DD` and `YYYY-MM-DD` formats. A commit's date is given as its day number. The labels are the `short` and `isoDate` parameters. Whatever the parse does with a given timestamp is therefore outside the model.
- The `since` query parameter and `numberOfDays` (index.js:78-81) are left out. `since` only narrows which commits the server returns. `numberOfDays` is never used.
- Command dispatch is left out: the regular expressions, the plugin objects and `chat.sendMessage`. The summary command's input is the single digit its pattern captures. A command's output is the text it returns.
- Summary.SummaryCommand, Recent.RecentReport: assume the response is an array whose elements carry `commit.author.date` and `commit.message`. GitHub answers a rate-limit or not-found error with a JSON object instead. On such an object the callback throws at index.js:114-115 (`for ... of` on a non-iterable) or at index.js:57-58 (`json[i].commit` of `undefined`), and nothing is sent. The model does not describe that exception.
- Recent.RecentReport: requires at least three commits. With fewer, the source reads `commit.commit` of `undefined` and throws. The model does not describe that exception.
- Summary.SummaryLayout: assumes no label contains '\n'. Recent.RecentLayout assumes no date or commit message contains '\n'. A multi-line commit message adds lines to the chat message, and that case is not described.
- Text.Decimal, Summary.Bucket: counts are unbounded `nat`s. In JavaScript they are doubles, so `++` would stop changing a count at 2^53, and `'' + n` would switch to exponent form at 10^21. Neither can happen, because one unpaged response holds at most 100 commits.
- `week.id` is built (and `BuildWindow` proves its value) but the source never renders it.
