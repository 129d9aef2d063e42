/** The analytics panel of the history tab: chart points in oldest-first
    order, the "Z" suffix that makes a server timestamp read as UTC, and
    the top-five leaderboard by savings ratio. Every pipeline starts from a
    copy of the logs, so here they are plain functions of the sequence. */
module Analytics {
  import opened Types

  const LeaderboardSize := 5
  const InvalidDate := "Invalid Date"
  const NotAvailable := "N/A"

  /** A time cell: fixed text, or one of the two locale renderings of the
      date that the given ISO text parses to: the chart's hour and minute
      (`toLocaleTimeString` with two-digit hour and minute) or the table's
      full date and time (`toLocaleString`). */
  datatype TimeCell = Text(text: string) | TimeOfDay(iso: string) | DateTime(iso: string)

  /** One point of the two charts. `savingsPercent` is the ratio times one
      hundred, before it is rounded to one decimal. */
  datatype ChartPoint = ChartPoint(id: int, time: TimeCell, raw: int, compressed: int, savingsPercent: real)

  /** What the panel shows. */
  datatype Panel = EmptyHistory | Charts(points: seq<ChartPoint>, leaderboard: seq<ActivityLog>)

  predicate EndsWithZ(s: string) {
    |s| > 0 && s[|s| - 1] == 'Z'
  }

  /** The server's timestamps carry no zone; a "Z" is appended unless one is there. */
  function NormalizeTimestamp(s: string): (r: string)
    ensures EndsWithZ(r)
    ensures EndsWithZ(s) ==> r == s
    ensures !EndsWithZ(s) ==> r == s + "Z"
  {
    if EndsWithZ(s) then s else s + "Z"
  }

  /** Normalizing twice is normalizing once: the suffix is never doubled. */
  lemma NormalizeIdempotent(s: string)
    ensures NormalizeTimestamp(NormalizeTimestamp(s)) == NormalizeTimestamp(s)
  {
  }

  /** Normalizing keeps the original text as a prefix and adds at most one character. */
  lemma NormalizeKeepsPrefix(s: string)
    ensures s <= NormalizeTimestamp(s) && |NormalizeTimestamp(s)| <= |s| + 1
  {
  }

  /** The chart's time label. Whether a text parses to a valid date is the
      browser's `Date` parser, given here as `validDate`. A missing timestamp
      or one that does not parse shows "Invalid Date"; otherwise the hour
      and minute of the normalized timestamp. */
  function ChartTime(createdAt: string, validDate: string -> bool): (t: TimeCell)
    ensures t == Text(InvalidDate) <==> createdAt == "" || !validDate(NormalizeTimestamp(createdAt))
    ensures createdAt != "" && validDate(NormalizeTimestamp(createdAt)) ==> t == TimeOfDay(NormalizeTimestamp(createdAt))
  {
    if createdAt == "" then Text(InvalidDate)
    else
      var iso := NormalizeTimestamp(createdAt);
      if validDate(iso) then TimeOfDay(iso) else Text(InvalidDate)
  }

  /** The leaderboard's time cell: a missing timestamp shows "N/A", one that
      does not parse "Invalid Date", otherwise the full date and time of the
      normalized timestamp. */
  function TableTime(createdAt: string, validDate: string -> bool): (t: TimeCell)
    ensures t == Text(NotAvailable) <==> createdAt == ""
    ensures t == Text(InvalidDate) <==> createdAt != "" && !validDate(NormalizeTimestamp(createdAt))
    ensures createdAt != "" && validDate(NormalizeTimestamp(createdAt)) ==> t == DateTime(NormalizeTimestamp(createdAt))
  {
    if createdAt == "" then Text(NotAvailable)
    else
      var iso := NormalizeTimestamp(createdAt);
      if validDate(iso) then DateTime(iso) else Text(InvalidDate)
  }

  /** The chart and the table show a date for the same logs, and both read
      it from the same normalized timestamp; the two cells are equal only
      when both show "Invalid Date", for a present timestamp that does not
      parse. */
  lemma TimeCellsShareInstant(createdAt: string, validDate: string -> bool)
    ensures ChartTime(createdAt, validDate).TimeOfDay? <==> TableTime(createdAt, validDate).DateTime?
    ensures ChartTime(createdAt, validDate).TimeOfDay? ==>
      ChartTime(createdAt, validDate).iso == TableTime(createdAt, validDate).iso == NormalizeTimestamp(createdAt)
    ensures ChartTime(createdAt, validDate) == TableTime(createdAt, validDate) <==>
      createdAt != "" && !validDate(NormalizeTimestamp(createdAt))
  {
  }

  function Point(log: ActivityLog, validDate: string -> bool): ChartPoint {
    ChartPoint(log.id, ChartTime(log.createdAt, validDate), log.rawTokens, log.compressedTokens, log.savingsRatio * 100.0)
  }

  /** The chart data: the logs (newest first from the server) reversed to
      oldest first, each turned into a point carrying its id and token
      counts. */
  function ChartData(logs: seq<ActivityLog>, validDate: string -> bool): (r: seq<ChartPoint>)
    ensures |r| == |logs|
    ensures forall i :: 0 <= i < |r| ==> r[i] == Point(logs[|logs| - 1 - i], validDate)
  {
    if logs == [] then []
    else
      var rest := ChartData(logs[1..], validDate);
      rest + [Point(logs[0], validDate)]
  }

  /** Each point copies the id and token counts of its log, and the oldest
      log (last from the server) is plotted first. */
  lemma ChartCopiesFields(logs: seq<ActivityLog>, validDate: string -> bool, i: int)
    requires 0 <= i < |logs|
    ensures ChartData(logs, validDate)[i].id == logs[|logs| - 1 - i].id
    ensures ChartData(logs, validDate)[i].raw == logs[|logs| - 1 - i].rawTokens
    ensures ChartData(logs, validDate)[i].compressed == logs[|logs| - 1 - i].compressedTokens
    ensures ChartData(logs, validDate)[0] == Point(logs[|logs| - 1], validDate)
  {
  }

  /** Descending by savings ratio. */
  predicate SortedByRatio(s: seq<ActivityLog>) {
    forall i, j :: 0 <= i < j < |s| ==> s[j].savingsRatio <= s[i].savingsRatio
  }

  /** A log put in front of a sorted list keeps it sorted when its ratio
      is at least that of the list's first log. */
  lemma ConsSorted(h: ActivityLog, t: seq<ActivityLog>)
    requires SortedByRatio(t)
    requires |t| > 0 ==> t[0].savingsRatio <= h.savingsRatio
    ensures SortedByRatio([h] + t)
  {
  }

  /** Places `x` before the first entry whose ratio does not exceed its own. */
  function Insert(x: ActivityLog, s: seq<ActivityLog>): (r: seq<ActivityLog>)
    requires SortedByRatio(s)
    ensures SortedByRatio(r)
    ensures multiset(r) == multiset(s) + multiset{x}
    ensures |r| == |s| + 1
    ensures r[0] == x || (|s| > 0 && r[0] == s[0])
  {
    if s == [] || s[0].savingsRatio <= x.savingsRatio then
      ConsSorted(x, s);
      [x] + s
    else
      assert s == [s[0]] + s[1..];
      var rest := Insert(x, s[1..]);
      ConsSorted(s[0], rest);
      [s[0]] + rest
  }

  /** `[...logs].sort((a, b) => b.savings_ratio - a.savings_ratio)`:
      descending by savings ratio, a rearrangement of the logs. Earlier logs
      are inserted in front of equal ones, as the stable built-in sort keeps
      them. */
  function SortByRatio(logs: seq<ActivityLog>): (r: seq<ActivityLog>)
    ensures SortedByRatio(r)
    ensures multiset(r) == multiset(logs)
    ensures |r| == |logs|
  {
    if logs == [] then []
    else
      assert logs == [logs[0]] + logs[1..];
      Insert(logs[0], SortByRatio(logs[1..]))
  }

  function Min(a: int, b: int): int {
    if a < b then a else b
  }

  /** The "Efficiency Leaderboard (Top 5)" rows. */
  function Leaderboard(logs: seq<ActivityLog>): (r: seq<ActivityLog>)
    ensures |r| == Min(LeaderboardSize, |logs|)
    ensures SortedByRatio(r)
    ensures multiset(r) <= multiset(logs)
  {
    var sorted := SortByRatio(logs);
    var k := Min(LeaderboardSize, |logs|);
    assert sorted == sorted[..k] + sorted[k..];
    sorted[..k]
  }

  /** What a prefix leaves of a sequence is its suffix, as a multiset. */
  lemma PrefixRemainder(s: seq<ActivityLog>, k: int)
    requires 0 <= k <= |s|
    ensures multiset(s) - multiset(s[..k]) == multiset(s[k..])
  {
    assert s == s[..k] + s[k..];
  }

  /** No log left off the leaderboard saves more than any log on it. */
  lemma LeaderboardIsTop(logs: seq<ActivityLog>, left: ActivityLog, i: int)
    requires left in multiset(logs) - multiset(Leaderboard(logs))
    requires 0 <= i < |Leaderboard(logs)|
    ensures left.savingsRatio <= Leaderboard(logs)[i].savingsRatio
  {
    var sorted := SortByRatio(logs);
    var k := Min(LeaderboardSize, |logs|);
    assert Leaderboard(logs) == sorted[..k];
    PrefixRemainder(sorted, k);
    assert left in sorted[k..];
    var j :| k <= j < |sorted| && sorted[j] == left;
    assert sorted[i] == Leaderboard(logs)[i];
  }

  /** The panel: the empty-history notice exactly when there are no logs. */
  function Show(logs: seq<ActivityLog>, validDate: string -> bool): (p: Panel)
    ensures p == EmptyHistory <==> logs == []
    ensures p.Charts? ==> p.points == ChartData(logs, validDate) && p.leaderboard == Leaderboard(logs)
  {
    if |logs| == 0 then EmptyHistory else Charts(ChartData(logs, validDate), Leaderboard(logs))
  }

  /** With five logs or fewer the leaderboard lists every one of them. */
  lemma SmallHistoryFullyListed(logs: seq<ActivityLog>)
    requires |logs| <= LeaderboardSize
    ensures multiset(Leaderboard(logs)) == multiset(logs)
  {
    var r := Leaderboard(logs);
    assert |multiset(r)| == |r| == |logs| == |multiset(logs)|;
    assert multiset(logs) == multiset(r) + (multiset(logs) - multiset(r));
  }
}
