/** The `!commits summary {X}` command: the per-day commit graph over the
    last X weeks (index.js:76-134). The window of days is built walking back
    from today, the commits are counted into a map keyed by date, and the
    map is rendered one line per week. */
module Summary {
  import opened Text
  import opened Commits

  // ----- Week count (index.js:77) -----

  /** `Math.min(5, parseInt(digit, 10))` on the single digit the command
      pattern captures: clamped from above only, so '0' asks for no week. */
  function WeekCount(digit: char): (n: nat)
    requires IsDigit(digit)
    ensures n <= 5 && n <= DigitValue(digit)
    ensures n == 5 || n == DigitValue(digit)
  {
    var requested := DigitValue(digit);
    if requested < 5 then requested else 5
  }

  // ----- Window construction (index.js:84-110) -----

  /** One element of `weeks`: its 1-based id, the 'MM/DD' labels written at
      d === 0 (startDate) and d === 6 (endDate), and the keys of `week.days`
      in insertion order, which is the order `for ... in` visits them. */
  datatype Week = Week(id: nat, startDate: string, endDate: string, days: seq<Day>)

  /** A value stored in, or read from, the `days` object: a number, the NaN
      that `undefined++` leaves behind, or `undefined` for a missing key. */
  datatype Value = Num(n: nat) | NaN | Undefined

  /** The days of the week with 0-based index i, newest first. */
  function WeekDays(i: nat): seq<Day> {
    seq(7, k => 7 * i + k)
  }

  /** The week with 0-based index i, given the 'MM/DD' label of each day. */
  function WeekOf(i: nat, short: Day -> string): Week {
    Week(i + 1, short(7 * i), short(7 * i + 6), WeekDays(i))
  }

  /** The weeks the loops build for `n` weeks. */
  function Window(n: nat, short: Day -> string): seq<Week> {
    seq(n, i requires 0 <= i => WeekOf(i, short))
  }

  /** The `days` object after the first `m` days are visited: each registered with 0. */
  function Zeros(m: nat): map<Day, Value> {
    if m == 0 then map[] else Zeros(m - 1)[m - 1 := Num(0)]
  }

  /** The two nested loops. `today` is the moving cursor: each
      `today.subtract(1, 'day')` makes it one day older. */
  method BuildWindow(numberOfWeeks: nat, short: Day -> string)
    returns (weeks: seq<Week>, days: map<Day, Value>)
    ensures weeks == Window(numberOfWeeks, short)
    ensures days == Zeros(7 * numberOfWeeks)
  {
    weeks, days := [], map[];
    var today: Day := 0;
    for i := 0 to numberOfWeeks
      invariant today == 7 * i
      invariant weeks == Window(i, short)
      invariant days == Zeros(today)
    {
      var startDate, endDate, weekDays := "", "", [];
      for d := 0 to 7
        invariant today == 7 * i + d
        invariant weekDays == WeekDays(i)[..d]
        invariant 0 < d ==> startDate == short(7 * i)
        invariant 6 < d ==> endDate == short(7 * i + 6)
        invariant days == Zeros(today)
      {
        if d == 0 {
          startDate := short(today);
        }
        if d == 6 {
          endDate := short(today);
        }
        var date := today;
        weekDays := weekDays + [date];
        days := days[date := Num(0)];
        today := today + 1;
      }
      assert weekDays == WeekDays(i);
      weeks := weeks + [Week(i + 1, startDate, endDate, weekDays)];
      assert weeks == Window(i + 1, short);
    }
  }

  /** Week i has id i + 1 and covers the seven days 7i .. 7i+6, newest
      first; its startDate is the label of its newest day and its endDate
      that of its oldest; the next week starts the day before it ends. */
  lemma WindowWeek(n: nat, short: Day -> string, i: nat)
    requires i < n
    ensures var w := Window(n, short)[i];
      && w.id == i + 1
      && |w.days| == 7
      && (forall k :: 0 <= k < 7 ==> w.days[k] == 7 * i + k)
      && w.startDate == short(w.days[0])
      && w.endDate == short(w.days[6])
      && (forall d :: d in w.days <==> 7 * i <= d < 7 * i + 7)
      && (i + 1 < n ==> Window(n, short)[i + 1].days[0] == w.days[6] + 1)
  {
    var w := Window(n, short)[i];
    forall d | 7 * i <= d < 7 * i + 7
      ensures d in w.days
    {
      assert w.days[d - 7 * i] == d;
    }
  }

  /** The weeks partition the days 0 .. 7n-1: a day lies in week d / 7 and
      in no other, and a day outside that range lies in no week. */
  lemma WindowPartition(n: nat, short: Day -> string, d: Day)
    ensures forall i :: 0 <= i < n ==> (d in Window(n, short)[i].days <==> 0 <= d && i == d / 7)
    ensures (exists i :: 0 <= i < n && d in Window(n, short)[i].days) <==> 0 <= d < 7 * n
  {
    forall i | 0 <= i < n
      ensures d in Window(n, short)[i].days <==> 0 <= d && i == d / 7
    {
      WindowWeek(n, short, i);
    }
    if 0 <= d < 7 * n {
      assert d in Window(n, short)[d / 7].days;
    }
  }

  /** Exactly the visited days are registered, each with 0. */
  lemma {:induction false} ZerosAt(m: nat, d: Day)
    ensures d in Zeros(m) <==> 0 <= d < m
    ensures d in Zeros(m) ==> Zeros(m)[d] == Num(0)
  {
    if m > 0 {
      ZerosAt(m - 1, d);
    }
  }

  /** The `days` object holds exactly 7n keys. */
  lemma {:induction false} ZerosSize(m: nat)
    ensures |Zeros(m)| == m
  {
    if m > 0 {
      ZerosAt(m - 1, m - 1);
      ZerosSize(m - 1);
    }
  }

  // ----- Bucketing (index.js:114-117) -----

  function Lookup(days: map<Day, Value>, d: Day): Value {
    if d in days then days[d] else Undefined
  }

  /** JavaScript's `x++` on a stored value. */
  function Bump(v: Value): Value {
    if v.Num? then Num(v.n + 1) else NaN
  }

  /** `k` increments in a row. */
  function BumpBy(v: Value, k: nat): Value {
    if k == 0 then v else if v.Num? then Num(v.n + k) else NaN
  }

  /** How many of the commits are dated on day d. */
  function CountOn(commits: seq<Commit>, d: Day): nat {
    if commits == [] then 0
    else CountOn(commits[..|commits| - 1], d) + if commits[|commits| - 1].day == d then 1 else 0
  }

  function DatesOf(commits: seq<Commit>): set<Day> {
    set c | c in commits :: c.day
  }

  /** The `days` object once every commit has been counted into it. */
  function Bucketed(days: map<Day, Value>, commits: seq<Commit>): map<Day, Value> {
    map d | d in days.Keys + DatesOf(commits) :: BumpBy(Lookup(days, d), CountOn(commits, d))
  }

  /** The bucketing loop: `days[commitDate]++` for every commit, in place. */
  method Bucket(days: map<Day, Value>, commits: seq<Commit>) returns (counts: map<Day, Value>)
    ensures counts == Bucketed(days, commits)
  {
    counts := days;
    assert counts == Bucketed(days, commits[..0]);
    for j := 0 to |commits|
      invariant counts == Bucketed(days, commits[..j])
    {
      var commitDate := commits[j].day;
      assert commits[..j + 1] == commits[..j] + [commits[j]];
      BucketedSnoc(days, commits[..j], commits[j]);
      counts := counts[commitDate := Bump(Lookup(counts, commitDate))];
    }
    assert commits[..|commits|] == commits;
  }

  lemma {:induction false} CountOnAbsent(commits: seq<Commit>, d: Day)
    requires d !in DatesOf(commits)
    ensures CountOn(commits, d) == 0
  {
    if commits != [] {
      var init := commits[..|commits| - 1];
      assert commits[|commits| - 1] in commits;
      forall c | c in init
        ensures c.day in DatesOf(commits)
      {
        assert c in commits;
      }
      CountOnAbsent(init, d);
    }
  }

  lemma LookupBucketed(days: map<Day, Value>, commits: seq<Commit>, d: Day)
    ensures Lookup(Bucketed(days, commits), d) == BumpBy(Lookup(days, d), CountOn(commits, d))
  {
    if d !in days && d !in DatesOf(commits) {
      CountOnAbsent(commits, d);
    }
  }

  /** Counting one more commit is one more `++` on its day. */
  lemma BucketedSnoc(days: map<Day, Value>, commits: seq<Commit>, c: Commit)
    ensures Bucketed(days, commits + [c])
         == Bucketed(days, commits)[c.day := Bump(Lookup(Bucketed(days, commits), c.day))]
  {
    var before := Bucketed(days, commits);
    var after := Bucketed(days, commits + [c]);
    var expected := before[c.day := Bump(Lookup(before, c.day))];
    assert after.Keys == expected.Keys by {
      DatesOfSnoc(commits, c);
    }
    forall d | d in after.Keys
      ensures after[d] == expected[d]
    {
      BucketedSnocAt(days, commits, c, d);
    }
  }

  lemma DatesOfSnoc(commits: seq<Commit>, c: Commit)
    ensures DatesOf(commits + [c]) == DatesOf(commits) + {c.day}
  {
    var s := commits + [c];
    assert s[|s| - 1] == c;
    forall e | e in commits
      ensures e in s
    {
      var k :| 0 <= k < |commits| && commits[k] == e;
      assert s[k] == e;
    }
  }

  lemma BucketedSnocAt(days: map<Day, Value>, commits: seq<Commit>, c: Commit, d: Day)
    ensures var before := Bucketed(days, commits);
            Lookup(Bucketed(days, commits + [c]), d)
              == Lookup(before[c.day := Bump(Lookup(before, c.day))], d)
  {
    var s := commits + [c];
    assert s[..|s| - 1] == commits;
    LookupBucketed(days, s, d);
    LookupBucketed(days, commits, d);
  }

  /** After bucketing, each day of the window holds the number of commits
      dated on it; a commit dated outside the window leaves a NaN under its
      own key. */
  lemma WindowCount(n: nat, commits: seq<Commit>, d: Day)
    ensures 0 <= d < 7 * n ==> Lookup(Bucketed(Zeros(7 * n), commits), d) == Num(CountOn(commits, d))
    ensures !(0 <= d < 7 * n) ==>
      Lookup(Bucketed(Zeros(7 * n), commits), d) == if CountOn(commits, d) == 0 then Undefined else NaN
  {
    LookupBucketed(Zeros(7 * n), commits, d);
    ZerosAt(7 * n, d);
  }

  // ----- Rendering (index.js:122-133) -----

  /** `commitCount === 0 ? ' _ ' : ' ' + commitCount + ' '`. */
  function Cell(v: Value): string {
    if v == Num(0) then " _ " else " " + ValueText(v) + " "
  }

  function ValueText(v: Value): string {
    match v
    case Num(k) => Decimal(k)
    case NaN => "NaN"
    case Undefined => "undefined"
  }

  /** Reads a count back from a rendered cell. */
  function CellCount(cell: string): Option<nat> {
    if cell == " _ " then Some(0)
    else if 3 <= |cell| && cell[0] == ' ' && cell[|cell| - 1] == ' ' && AllDigits(cell[1..|cell| - 1])
    then Some(DecimalValue(cell[1..|cell| - 1]))
    else None
  }

  /** A cell shows the count it was rendered from, and no count for NaN or undefined. */
  lemma CellRoundTrip(v: Value)
    ensures CellCount(Cell(v)) == if v.Num? then Some(v.n) else None
  {
    var cell := Cell(v);
    match v
    case Num(k) =>
      if k != 0 {
        var s := Decimal(k);
        assert cell[1] == s[0] && IsDigit(s[0]);
        assert cell[1..|cell| - 1] == s;
        DecimalRoundTrip(k);
      }
    case NaN =>
      assert !IsDigit(cell[1..|cell| - 1][0]);
    case Undefined =>
      assert !IsDigit(cell[1..|cell| - 1][0]);
  }

  /** The cells of one week's line, for its keys in order. */
  function Cells(dates: seq<Day>, days: map<Day, Value>): string {
    if dates == [] then ""
    else Cells(dates[..|dates| - 1], days) + Cell(Lookup(days, dates[|dates| - 1]))
  }

  /** One week's line without its '\n'. */
  function LineText(week: Week, days: map<Day, Value>): string {
    week.startDate + " - " + week.endDate + ": " + Cells(week.days, days)
  }

  /** The texts of the week lines, in the order of `weeks`. */
  function LineTexts(weeks: seq<Week>, days: map<Day, Value>): seq<string> {
    seq(|weeks|, i requires 0 <= i < |weeks| => LineText(weeks[i], days))
  }

  /** `msg` after the rendering loop: each week's line ended by '\n'. */
  function Lines(weeks: seq<Week>, days: map<Day, Value>): string {
    Terminated(LineTexts(weeks, days))
  }

  lemma CellsSnoc(dates: seq<Day>, k: nat, days: map<Day, Value>)
    requires k < |dates|
    ensures Cells(dates[..k + 1], days) == Cells(dates[..k], days) + Cell(Lookup(days, dates[k]))
  {
    assert dates[..k + 1][..k] == dates[..k];
  }

  lemma LinesSnoc(weeks: seq<Week>, w: nat, days: map<Day, Value>)
    requires w < |weeks|
    ensures Lines(weeks[..w + 1], days) == Lines(weeks[..w], days) + LineText(weeks[w], days) + "\n"
  {
    var texts := LineTexts(weeks[..w + 1], days);
    assert texts[..w] == LineTexts(weeks[..w], days);
  }

  /** The rendering loops: one line per week, one cell per key of the week. */
  method Render(weeks: seq<Week>, days: map<Day, Value>) returns (msg: string)
    ensures msg == Lines(weeks, days)
  {
    msg := "";
    for w := 0 to |weeks|
      invariant msg == Lines(weeks[..w], days)
    {
      var week := weeks[w];
      ghost var done := msg;
      var heading := week.startDate + " - " + week.endDate + ": ";
      msg := msg + heading;
      ghost var line := heading;
      for k := 0 to |week.days|
        invariant line == heading + Cells(week.days[..k], days)
        invariant msg == done + line
      {
        var commitCount := Lookup(days, week.days[k]);
        CellsSnoc(week.days, k, days);
        Associative(heading, Cells(week.days[..k], days), Cell(commitCount));
        Associative(done, line, Cell(commitCount));
        msg := msg + Cell(commitCount);
        line := line + Cell(commitCount);
      }
      assert week.days[..|week.days|] == week.days;
      assert line == LineText(week, days);
      msg := msg + "\n";
      LinesSnoc(weeks, w, days);
    }
    assert weeks[..|weeks|] == weeks;
  }

  /** The header's first line: "week" for exactly one week, "weeks" otherwise. */
  function HeaderLine(n: nat): string {
    "Commits for the last " + Decimal(n) + " " + (if n == 1 then "week" else "weeks") + ":"
  }

  lemma HeaderWording(n: nat)
    ensures HeaderLine(n) == "Commits for the last " + Decimal(n) + " week:" <==> n == 1
    ensures HeaderLine(n) == "Commits for the last " + Decimal(n) + " weeks:" <==> n != 1
  {
    var singular := "Commits for the last " + Decimal(n) + " week:";
    var plural := "Commits for the last " + Decimal(n) + " weeks:";
    assert |plural| == |singular| + 1;
  }

  // ----- Properties of the rendered message -----

  lemma {:induction false} CellsAgree(dates: seq<Day>, m1: map<Day, Value>, m2: map<Day, Value>)
    requires forall k :: 0 <= k < |dates| ==> Lookup(m1, dates[k]) == Lookup(m2, dates[k])
    ensures Cells(dates, m1) == Cells(dates, m2)
  {
    if dates != [] {
      var init := dates[..|dates| - 1];
      assert forall k :: 0 <= k < |init| ==> init[k] == dates[k];
      CellsAgree(init, m1, m2);
    }
  }

  /** The rendered lines read the `days` object only at the weeks' own keys. */
  lemma LinesAgree(weeks: seq<Week>, m1: map<Day, Value>, m2: map<Day, Value>)
    requires forall i, k :: 0 <= i < |weeks| && 0 <= k < |weeks[i].days| ==>
      Lookup(m1, weeks[i].days[k]) == Lookup(m2, weeks[i].days[k])
    ensures Lines(weeks, m1) == Lines(weeks, m2)
  {
    forall i | 0 <= i < |weeks|
      ensures LineText(weeks[i], m1) == LineText(weeks[i], m2)
    {
      CellsAgree(weeks[i].days, m1, m2);
    }
    assert LineTexts(weeks, m1) == LineTexts(weeks, m2);
  }

  /** A commit dated outside the window changes no count inside it and no
      rendered line; it leaves a NaN under its own key. */
  lemma OutsideCommitInvisible(n: nat, short: Day -> string, commits: seq<Commit>, c: Commit)
    requires c.day < 0 || 7 * n <= c.day
    ensures forall d :: 0 <= d < 7 * n ==>
      Lookup(Bucketed(Zeros(7 * n), commits + [c]), d) == Lookup(Bucketed(Zeros(7 * n), commits), d)
    ensures Lookup(Bucketed(Zeros(7 * n), commits + [c]), c.day) == NaN
    ensures Lines(Window(n, short), Bucketed(Zeros(7 * n), commits + [c]))
         == Lines(Window(n, short), Bucketed(Zeros(7 * n), commits))
  {
    var before := Bucketed(Zeros(7 * n), commits);
    var after := Bucketed(Zeros(7 * n), commits + [c]);
    forall d | 0 <= d < 7 * n
      ensures Lookup(after, d) == Lookup(before, d)
    {
      BucketedSnocAt(Zeros(7 * n), commits, c, d);
    }
    BucketedSnocAt(Zeros(7 * n), commits, c, c.day);
    WindowCount(n, commits, c.day);
    var weeks := Window(n, short);
    forall i, k | 0 <= i < |weeks| && 0 <= k < |weeks[i].days|
      ensures Lookup(after, weeks[i].days[k]) == Lookup(before, weeks[i].days[k])
    {
      WindowWeek(n, short, i);
    }
    LinesAgree(weeks, after, before);
  }

  lemma {:induction false} CellsNoNewline(dates: seq<Day>, days: map<Day, Value>)
    ensures NoNewline(Cells(dates, days))
  {
    if dates != [] {
      CellsNoNewline(dates[..|dates| - 1], days);
    }
  }

  lemma LineTextNoNewline(week: Week, days: map<Day, Value>)
    requires NoNewline(week.startDate) && NoNewline(week.endDate)
    ensures NoNewline(LineText(week, days))
  {
    CellsNoNewline(week.days, days);
  }

  /** The message is the header line, then one line per week in the order
      of `weeks` (most recent week first), then the empty text after the
      final '\n'. Each week line is its newest day's label, " - ", its
      oldest day's label, ": " and the cells of its seven days. */
  lemma SummaryLayout(digit: char, commits: seq<Commit>, short: Day -> string)
    requires IsDigit(digit)
    requires forall d :: NoNewline(short(d))
    ensures var n := WeekCount(digit);
            var counts := Bucketed(Zeros(7 * n), commits);
            var lines := Split(SummaryMessage(digit, commits, short));
            && |lines| == n + 2
            && lines[0] == HeaderLine(n)
            && (forall i :: 0 <= i < n ==>
                  lines[i + 1] == short(7 * i) + " - " + short(7 * i + 6) + ": " + Cells(WeekDays(i), counts))
            && lines[n + 1] == ""
  {
    var n := WeekCount(digit);
    var counts := Bucketed(Zeros(7 * n), commits);
    SummarySplit(digit, commits, short);
    WindowLayout(Split(SummaryMessage(digit, commits, short)), n, short, counts);
  }

  /** The lines after the header are the window's week lines, oldest last. */
  lemma WindowLayout(lines: seq<string>, n: nat, short: Day -> string, counts: map<Day, Value>)
    requires lines == [HeaderLine(n)] + (LineTexts(Window(n, short), counts) + [""])
    ensures forall i :: 0 <= i < n ==>
              lines[i + 1] == short(7 * i) + " - " + short(7 * i + 6) + ": " + Cells(WeekDays(i), counts)
  {
    forall i | 0 <= i < n
      ensures lines[i + 1] == short(7 * i) + " - " + short(7 * i + 6) + ": " + Cells(WeekDays(i), counts)
    {
      WindowLineAt(lines, n, short, counts, i);
    }
  }

  lemma WindowLineAt(lines: seq<string>, n: nat, short: Day -> string, counts: map<Day, Value>, i: nat)
    requires lines == [HeaderLine(n)] + (LineTexts(Window(n, short), counts) + [""])
    requires i < n
    ensures lines[i + 1] == short(7 * i) + " - " + short(7 * i + 6) + ": " + Cells(WeekDays(i), counts)
  {
    var texts := LineTexts(Window(n, short), counts);
    assert lines[i + 1] == texts[i];
    assert Window(n, short)[i] == WeekOf(i, short);
  }

  lemma SummarySplit(digit: char, commits: seq<Commit>, short: Day -> string)
    requires IsDigit(digit)
    requires forall d :: NoNewline(short(d))
    ensures var n := WeekCount(digit);
            var counts := Bucketed(Zeros(7 * n), commits);
            Split(SummaryMessage(digit, commits, short))
              == [HeaderLine(n)] + (LineTexts(Window(n, short), counts) + [""])
  {
    var n := WeekCount(digit);
    var counts := Bucketed(Zeros(7 * n), commits);
    var weeks := Window(n, short);
    var header := HeaderLine(n);
    assert NoNewline(header) by {
      assert NoNewline(Decimal(n));
    }
    SplitLine(header, Lines(weeks, counts));
    WindowLinesSplit(n, short, counts);
  }

  lemma WindowLinesSplit(n: nat, short: Day -> string, counts: map<Day, Value>)
    requires forall d :: NoNewline(short(d))
    ensures Split(Lines(Window(n, short), counts)) == LineTexts(Window(n, short), counts) + [""]
  {
    var weeks := Window(n, short);
    forall i | 0 <= i < n
      ensures NoNewline(LineTexts(weeks, counts)[i])
    {
      LineTextNoNewline(weeks[i], counts);
    }
    assert Lines(weeks, counts) + "" == Lines(weeks, counts);
    SplitTerminated(LineTexts(weeks, counts), "");
  }

  // ----- Reading the cells of a line back -----

  /** The position of the last ' ' in s before position i, if there is one. */
  function LastSpaceBefore(s: string, i: nat): (r: Option<nat>)
    requires i <= |s|
    ensures r.Some? ==> r.value < i && s[r.value] == ' '
  {
    if i == 0 then None
    else if s[i - 1] == ' ' then Some(i - 1)
    else LastSpaceBefore(s, i - 1)
  }

  /** Cuts a run of cells, each ' ', a word without spaces and ' ', into its cells. */
  function ReadCells(s: string): seq<string>
    decreases |s|
  {
    if |s| < 2 || s[|s| - 1] != ' ' then []
    else match LastSpaceBefore(s, |s| - 1)
      case None => []
      case Some(j) => ReadCells(s[..j]) + [s[j..]]
  }

  predicate NoSpace(s: string) {
    ' ' !in s
  }

  /** The word a cell shows between its two spaces. */
  function CellWord(v: Value): (w: string)
    ensures Cell(v) == " " + w + " " && NoSpace(w)
  {
    if v == Num(0) then "_" else ValueText(v)
  }

  lemma {:induction false} LastSpaceInCell(p: string, word: string, i: nat)
    requires NoSpace(word)
    requires |p| + 1 <= i <= |p| + 1 + |word|
    ensures LastSpaceBefore(p + " " + word + " ", i) == Some(|p|)
  {
    var s := p + " " + word + " ";
    if i > |p| + 1 {
      assert s[i - 1] == word[i - 2 - |p|];
      LastSpaceInCell(p, word, i - 1);
    }
  }

  lemma ReadCellsSnocWord(p: string, word: string)
    requires NoSpace(word)
    ensures ReadCells(p + " " + word + " ") == ReadCells(p) + [" " + word + " "]
  {
    var s := p + " " + word + " ";
    LastSpaceInCell(p, word, |s| - 1);
    assert s[..|p|] == p;
    assert s[|p|..] == " " + word + " ";
  }

  lemma ReadCellsSnoc(p: string, v: Value)
    ensures ReadCells(p + Cell(v)) == ReadCells(p) + [Cell(v)]
  {
    var word := CellWord(v);
    assert p + Cell(v) == p + " " + word + " " by {
      Associative(p, " " + word, " ");
      Associative(p, " ", word);
    }
    ReadCellsSnocWord(p, word);
  }

  /** The cells of a line, one text per key. */
  function CellTexts(dates: seq<Day>, days: map<Day, Value>): seq<string> {
    seq(|dates|, k requires 0 <= k < |dates| => Cell(Lookup(days, dates[k])))
  }

  lemma CellTextsSnoc(dates: seq<Day>, days: map<Day, Value>)
    requires dates != []
    ensures CellTexts(dates, days)
         == CellTexts(dates[..|dates| - 1], days) + [Cell(Lookup(days, dates[|dates| - 1]))]
  {
    var init := dates[..|dates| - 1];
    assert forall k :: 0 <= k < |init| ==> init[k] == dates[k];
  }

  /** A line's cells read back one per day of the week, in order. */
  lemma {:induction false} ReadCellsOfCells(dates: seq<Day>, days: map<Day, Value>)
    ensures ReadCells(Cells(dates, days)) == CellTexts(dates, days)
  {
    if dates == [] {
      assert Cells(dates, days) == "";
    } else {
      var init, last := dates[..|dates| - 1], Cell(Lookup(days, dates[|dates| - 1]));
      calc {
        ReadCells(Cells(dates, days));
        ReadCells(Cells(init, days) + last);
        { ReadCellsSnoc(Cells(init, days), Lookup(days, dates[|dates| - 1])); }
        ReadCells(Cells(init, days)) + [last];
        { ReadCellsOfCells(init, days); }
        CellTexts(init, days) + [last];
        { CellTextsSnoc(dates, days); }
        CellTexts(dates, days);
      }
    }
  }

  /** Each week line holds exactly seven cells, and cell k of week i shows
      the number of commits dated on day 7i + k. */
  lemma WeekCells(n: nat, commits: seq<Commit>, i: nat)
    requires i < n
    ensures var cells := ReadCells(Cells(WeekDays(i), Bucketed(Zeros(7 * n), commits)));
      && |cells| == 7
      && forall k :: 0 <= k < 7 ==> CellCount(cells[k]) == Some(CountOn(commits, 7 * i + k))
  {
    var counts := Bucketed(Zeros(7 * n), commits);
    ReadCellsOfCells(WeekDays(i), counts);
    WeekCellCounts(ReadCells(Cells(WeekDays(i), counts)), n, commits, i);
  }

  lemma WeekCellCounts(cells: seq<string>, n: nat, commits: seq<Commit>, i: nat)
    requires i < n
    requires cells == CellTexts(WeekDays(i), Bucketed(Zeros(7 * n), commits))
    ensures |cells| == 7
    ensures forall k :: 0 <= k < 7 ==> CellCount(cells[k]) == Some(CountOn(commits, 7 * i + k))
  {
    var counts := Bucketed(Zeros(7 * n), commits);
    var dates := WeekDays(i);
    forall k | 0 <= k < 7
      ensures CellCount(cells[k]) == Some(CountOn(commits, 7 * i + k))
    {
      var v := Lookup(counts, dates[k]);
      assert v == Num(CountOn(commits, 7 * i + k)) by {
        WindowCount(n, commits, dates[k]);
      }
      assert cells[k] == Cell(v);
      CellRoundTrip(v);
    }
  }

  // ----- A worked example -----

  /** `m` empty cells. */
  function Blanks(m: nat): string {
    if m == 0 then "" else Blanks(m - 1) + " _ "
  }

  lemma {:induction false} EmptyCells(dates: seq<Day>, days: map<Day, Value>)
    requires forall k :: 0 <= k < |dates| ==> Lookup(days, dates[k]) == Num(0)
    ensures Cells(dates, days) == Blanks(|dates|)
  {
    if dates != [] {
      var init := dates[..|dates| - 1];
      assert forall k :: 0 <= k < |init| ==> init[k] == dates[k];
      EmptyCells(init, days);
    }
  }

  lemma NoCommitsBlank(n: nat, i: nat)
    requires i < n
    ensures Cells(WeekDays(i), Bucketed(Zeros(7 * n), [])) == Blanks(7)
  {
    var counts := Bucketed(Zeros(7 * n), []);
    var dates := WeekDays(i);
    forall k | 0 <= k < 7
      ensures Lookup(counts, dates[k]) == Num(0)
    {
      WindowCount(n, [], dates[k]);
    }
    EmptyCells(dates, counts);
  }

  lemma SevenBlanks()
    ensures Blanks(7) == " _  _  _  _  _  _  _ "
  {
  }

  /** One week and no commit: the line runs from today's label to the label
      of six days ago, and all seven cells are empty. */
  lemma OneWeekNoCommits(short: Day -> string)
    ensures SummaryMessage('1', [], short)
         == "Commits for the last 1 week:\n"
            + (short(0) + " - " + short(6) + ": " + " _  _  _  _  _  _  _ " + "\n")
  {
    OneWeekNoCommitsLines(short);
    assert WeekCount('1') == 1;
    assert HeaderLine(1) + "\n" == "Commits for the last 1 week:\n" by {
      assert Decimal(1) == "1";
    }
  }

  lemma OneWeekNoCommitsLines(short: Day -> string)
    ensures Lines(Window(1, short), Bucketed(Zeros(7), []))
         == short(0) + " - " + short(6) + ": " + " _  _  _  _  _  _  _ " + "\n"
  {
    var counts := Bucketed(Zeros(7), []);
    var weeks := Window(1, short);
    OneWeekNoCommitsLine(short);
    assert LineTexts(weeks, counts) == [LineText(weeks[0], counts)];
    TerminatedOne(LineText(weeks[0], counts));
  }

  lemma OneWeekNoCommitsLine(short: Day -> string)
    ensures LineText(Window(1, short)[0], Bucketed(Zeros(7), []))
         == short(0) + " - " + short(6) + ": " + " _  _  _  _  _  _  _ "
  {
    NoCommitsBlank(1, 0);
    SevenBlanks();
  }

  lemma HeaderThen(n: nat, rest: string)
    ensures "Commits for the last " + Decimal(n) + " " + (if n == 1 then "week" else "weeks") + ":\n" + rest
         == HeaderLine(n) + "\n" + rest
  {
    var head := "Commits for the last " + Decimal(n) + " " + (if n == 1 then "week" else "weeks");
    assert ":\n" == ":" + "\n";
    Associative(head, ":", "\n");
  }

  /** The message the command sends. */
  function SummaryMessage(digit: char, commits: seq<Commit>, short: Day -> string): string
    requires IsDigit(digit)
  {
    var n := WeekCount(digit);
    HeaderLine(n) + "\n" + Lines(Window(n, short), Bucketed(Zeros(7 * n), commits))
  }

  /** The whole `action`: clamp, window, bucketing and rendering. The
      commits are those the request returns; the request itself and the
      chat framework are not part of this model. */
  method SummaryCommand(digit: char, commits: seq<Commit>, short: Day -> string)
    returns (message: string)
    requires IsDigit(digit)
    ensures message == SummaryMessage(digit, commits, short)
  {
    var numberOfWeeks := WeekCount(digit);
    var weeks, days := BuildWindow(numberOfWeeks, short);
    days := Bucket(days, commits);
    var msg := Render(weeks, days);
    var weeksText := if numberOfWeeks == 1 then "week" else "weeks";
    message := "Commits for the last " + Decimal(numberOfWeeks) + " " + weeksText + ":\n" + msg;
    HeaderThen(numberOfWeeks, msg);
  }
}
