// The terminal dashboard: one refresh reads the trade log line by line into
// per-strategy counters, then lists the strategies by PnL with their win
// rates and the overall profit.
module Dashboard {
  import opened Numerics
  import opened Wrappers
  import opened Collections

  /** The name of records written before strategies were named. */
  const LegacyName: string := "Legacy (Pre-v3)"
  const LastTradeWidth: nat := 19

  /**
   * One line of the log. A decoded record holds its fields with the defaults
   * of absent keys already applied (PnL and size 0, action "", time "-");
   * `pnl`, `sizeUsdc` and `timestamp` are None when the value present cannot
   * be added to a number or sliced, which aborts the line where it is used.
   */
  datatype Line =
    | Unparsable
    | Record(strategy: Option<string>, pnl: Option<real>, action: string, sizeUsdc: Option<real>,
             timestamp: Option<string>)

  datatype StrategyStats = StrategyStats(pnl: real, trades: nat, wins: nat, losses: nat, lastTrade: string,
                                         totalBet: real)

  const Fresh: StrategyStats := StrategyStats(0.0, 0, 0, 0, "-", 0.0)

  predicate Settled(action: string)
  {
    action == "WIN" || action == "LOSS" || action == "EXPIRED"
  }

  function NameOf(strategy: Option<string>): string
  {
    strategy.GetOr(LegacyName)
  }

  /** The per-strategy counters, keyed in order of first appearance. */
  datatype Tally = Tally(stats: map<string, StrategyStats>, names: seq<string>)

  ghost predicate Consistent(t: Tally)
  {
    NoDuplicates(t.names) && (forall n :: n in t.names <==> n in t.stats) &&
    forall n :: n in t.stats ==> t.stats[n].wins + t.stats[n].losses <= t.stats[n].trades
  }

  /** The counters of one strategy after a decoded record of it, up to the first field that aborts the line. */
  function CountRecord(s: StrategyStats, line: Line): (r: StrategyStats)
    requires line.Record?
    ensures r.wins + r.losses - (s.wins + s.losses) <= r.trades - s.trades
  {
    var afterSettle :=
      if Settled(line.action) && line.pnl.Some? then
        var p := line.pnl.value;
        s.(pnl := s.pnl + p, trades := s.trades + 1,
           wins := if p > 0.0 then s.wins + 1 else s.wins,
           losses := if p < 0.0 then s.losses + 1 else s.losses)
      else s;
    if Settled(line.action) && line.pnl.None? then s
    else
      var afterOpen :=
        if line.action == "OPEN" && line.sizeUsdc.Some? then afterSettle.(totalBet := afterSettle.totalBet + line.sizeUsdc.value)
        else afterSettle;
      if line.action == "OPEN" && line.sizeUsdc.None? then afterSettle
      else if line.timestamp.None? then afterOpen
      else
        var ts := line.timestamp.value;
        afterOpen.(lastTrade := ts[..if |ts| < LastTradeWidth then |ts| else LastTradeWidth])
  }

  /** One line: a decoded record creates its strategy's counters, even when a field then aborts it. */
  function TallyLine(t: Tally, line: Line): Tally
  {
    if line.Unparsable? then t
    else
      var name := NameOf(line.strategy);
      var s := if name in t.stats then t.stats[name] else Fresh;
      Tally(t.stats[name := CountRecord(s, line)], Insert(t.names, name))
  }

  function TallyOf(lines: seq<Line>): (t: Tally)
    ensures Consistent(t)
  {
    if |lines| == 0 then Tally(map[], [])
    else TallyLine(TallyOf(lines[..|lines| - 1]), lines[|lines| - 1])
  }

  /** A line of `name` whose PnL counts: a decoded, settled record with a numeric PnL. */
  predicate CountsFor(line: Line, name: string)
  {
    line.Record? && NameOf(line.strategy) == name && Settled(line.action) && line.pnl.Some?
  }

  /** The PnL of `name` as a plain sum over the log... */
  function SettledPnl(lines: seq<Line>, name: string): real
  {
    if |lines| == 0 then 0.0
    else
      var line := lines[|lines| - 1];
      SettledPnl(lines[..|lines| - 1], name) + (if CountsFor(line, name) then line.pnl.value else 0.0)
  }

  /** ...and its trade count. */
  function SettledCount(lines: seq<Line>, name: string): nat
  {
    if |lines| == 0 then 0
    else SettledCount(lines[..|lines| - 1], name) + (if CountsFor(lines[|lines| - 1], name) then 1 else 0)
  }

  /**
   * The tally agrees with the plain sums: a strategy's PnL is the sum of the
   * PnL of its settled records and its trades their number; a strategy
   * without a record has neither.
   */
  lemma {:induction false} TallyMatchesSums(lines: seq<Line>, name: string)
    ensures name in TallyOf(lines).stats ==>
              TallyOf(lines).stats[name].pnl == SettledPnl(lines, name) &&
              TallyOf(lines).stats[name].trades == SettledCount(lines, name)
    ensures name !in TallyOf(lines).stats ==> SettledPnl(lines, name) == 0.0 && SettledCount(lines, name) == 0
  {
    if |lines| > 0 {
      TallyMatchesSums(lines[..|lines| - 1], name);
      LineSums(TallyOf(lines[..|lines| - 1]), lines[|lines| - 1], name);
    }
  }

  /** One line adds to `name`'s PnL and trade count exactly when it counts for `name`. */
  lemma LineSums(t: Tally, line: Line, name: string)
    ensures var r := TallyLine(t, line);
            (name in r.stats <==> name in t.stats || (line.Record? && NameOf(line.strategy) == name)) &&
            (name in r.stats ==>
               r.stats[name].pnl == (if name in t.stats then t.stats[name].pnl else 0.0) +
                                    (if CountsFor(line, name) then line.pnl.value else 0.0) &&
               r.stats[name].trades == (if name in t.stats then t.stats[name].trades else 0) +
                                       (if CountsFor(line, name) then 1 else 0))
  {
    if line.Record? && NameOf(line.strategy) == name {
      var s := if name in t.stats then t.stats[name] else Fresh;
      RecordEffect(s, line);
    }
  }

  /**
   * What a decoded record does to its strategy: only WIN, LOSS and EXPIRED
   * move the PnL and the trade count; a positive PnL is a win, a negative
   * one a loss and zero neither; OPEN adds the size to the total bet.
   */
  lemma RecordEffect(s: StrategyStats, line: Line)
    requires line.Record?
    ensures !Settled(line.action) ==> CountRecord(s, line).pnl == s.pnl && CountRecord(s, line).trades == s.trades
    ensures Settled(line.action) && line.pnl.Some? ==>
              var r := CountRecord(s, line);
              r.pnl == s.pnl + line.pnl.value && r.trades == s.trades + 1 &&
              (r.wins == s.wins + 1 <==> line.pnl.value > 0.0) && (r.losses == s.losses + 1 <==> line.pnl.value < 0.0) &&
              r.wins + r.losses <= s.wins + s.losses + 1
    ensures line.action == "OPEN" && line.sizeUsdc.Some? ==>
              CountRecord(s, line).totalBet == s.totalBet + line.sizeUsdc.value
    ensures line.action != "OPEN" ==> CountRecord(s, line).totalBet == s.totalBet
  {
  }

  /** `run_dashboard`'s reading loop over the lines of the log. */
  method ReadLog(lines: seq<Line>) returns (stats: map<string, StrategyStats>, names: seq<string>)
    ensures Tally(stats, names) == TallyOf(lines)
  {
    stats := map[];
    names := [];
    for i := 0 to |lines|
      invariant Tally(stats, names) == TallyOf(lines[..i])
    {
      assert lines[..i + 1][..i] == lines[..i];
      var line := lines[i];
      if line.Unparsable? {
        continue;
      }
      var name := NameOf(line.strategy);
      if name !in stats {
        stats := stats[name := Fresh];
        names := names + [name];
      }
      var s := stats[name];
      var updated := CountLine(s, line);
      stats := stats[name := updated];
    }
    assert lines[..|lines|] == lines;
  }

  /** The counter updates of one decoded record, stopping at the first field that aborts the line. */
  method CountLine(s: StrategyStats, line: Line) returns (r: StrategyStats)
    requires line.Record?
    ensures r == CountRecord(s, line)
  {
    r := s;
    if Settled(line.action) {
      if line.pnl.None? {
        return;
      }
      var pnl := line.pnl.value;
      r := r.(pnl := r.pnl + pnl, trades := r.trades + 1);
      if pnl > 0.0 {
        r := r.(wins := r.wins + 1);
      } else if pnl < 0.0 {
        r := r.(losses := r.losses + 1);
      }
    }
    if line.action == "OPEN" {
      if line.sizeUsdc.None? {
        return;
      }
      r := r.(totalBet := r.totalBet + line.sizeUsdc.value);
    }
    if line.timestamp.None? {
      return;
    }
    var ts := line.timestamp.value;
    r := r.(lastTrade := ts[..if |ts| < LastTradeWidth then |ts| else LastTradeWidth]);
  }

  datatype SummaryRow = SummaryRow(name: string, pnl: real, winRate: real, trades: nat, totalBet: real,
                                   lastTrade: string)

  /** The descending sort key: minus the PnL. */
  function ByPnlDescending(item: (string, StrategyStats)): real
  {
    -item.1.pnl
  }

  function PnlOf(item: (string, StrategyStats)): real
  {
    item.1.pnl
  }

  function Items(t: Tally): (items: seq<(string, StrategyStats)>)
    requires Consistent(t)
    ensures |items| == |t.names| && forall k :: 0 <= k < |items| ==> items[k] == (t.names[k], t.stats[t.names[k]])
  {
    seq(|t.names|, k requires 0 <= k < |t.names| => (t.names[k], t.stats[t.names[k]]))
  }

  /** Every item pairs a strategy with its own counters, which never count more outcomes than trades. */
  lemma ItemSound(t: Tally, x: (string, StrategyStats))
    requires Consistent(t) && x in Items(t)
    ensures x.0 in t.stats && x.1 == t.stats[x.0] && x.1.wins <= x.1.trades
  {
    var k :| 0 <= k < |Items(t)| && Items(t)[k] == x;
  }

  /** Wins over trades, in percent; 0 without trades. */
  function WinRateOf(s: StrategyStats): (r: real)
    ensures s.wins <= s.trades ==> 0.0 <= r <= 100.0 && (s.trades == 0 ==> r == 0.0)
  {
    if s.trades > 0 then
      if s.wins <= s.trades then
        DivLeft(s.wins as real, s.trades as real, s.trades as real);
        s.wins as real / s.trades as real * 100.0
      else s.wins as real / s.trades as real * 100.0
    else 0.0
  }

  function SummaryRowOf(item: (string, StrategyStats)): SummaryRow
  {
    var s := item.1;
    SummaryRow(item.0, s.pnl, WinRateOf(s), s.trades, s.totalBet, s.lastTrade)
  }

  /** The rows printed for `items`, in their order. */
  function RowsOf(items: seq<(string, StrategyStats)>): (rows: seq<SummaryRow>)
    ensures |rows| == |items|
  {
    seq(|items|, k requires 0 <= k < |items| => SummaryRowOf(items[k]))
  }

  /** The printing loop: one row per strategy in the given order, and the running total of their PnL. */
  method SummaryRows(sortedStats: seq<(string, StrategyStats)>) returns (rows: seq<SummaryRow>, total: real)
    ensures |rows| == |sortedStats| && total == SumBy(sortedStats, PnlOf)
    ensures forall k :: 0 <= k < |rows| ==> rows[k] == SummaryRowOf(sortedStats[k])
    ensures rows == RowsOf(sortedStats)
  {
    rows := [];
    total := 0.0;
    for i := 0 to |sortedStats|
      invariant |rows| == i && total == SumBy(sortedStats[..i], PnlOf)
      invariant forall k :: 0 <= k < i ==> rows[k] == SummaryRowOf(sortedStats[k])
    {
      assert sortedStats[..i + 1][..i] == sortedStats[..i];
      var (name, s) := sortedStats[i];
      var winRate := if s.trades > 0 then s.wins as real / s.trades as real * 100.0 else 0.0;
      total := total + s.pnl;
      rows := rows + [SummaryRow(name, s.pnl, winRate, s.trades, s.totalBet, s.lastTrade)];
    }
    assert sortedStats[..|sortedStats|] == sortedStats;
  }

  /**
   * The summary of one refresh: strategies by PnL, highest first, each with
   * its win rate (wins over trades, 0 without trades), and the total profit.
   */
  method Summarize(t: Tally) returns (rows: seq<SummaryRow>, total: real)
    requires Consistent(t)
    ensures |rows| == |t.names|
    ensures forall i, j :: 0 <= i < j < |rows| ==> rows[i].pnl >= rows[j].pnl
    ensures forall i :: 0 <= i < |rows| ==> 0.0 <= rows[i].winRate <= 100.0 && (rows[i].trades == 0 ==> rows[i].winRate == 0.0)
    ensures forall i :: 0 <= i < |rows| ==> rows[i].name in t.stats && rows[i].pnl == t.stats[rows[i].name].pnl
    ensures total == SumBy(Items(t), PnlOf)
    ensures rows == RowsOf(SortBy(Items(t), ByPnlDescending))
    ensures forall i :: 0 <= i < |rows| ==> rows[i].name in t.stats && rows[i] == SummaryRowOf((rows[i].name, t.stats[rows[i].name]))
    ensures forall n :: n in t.stats ==> exists i :: 0 <= i < |rows| && rows[i].name == n
    ensures forall i, j :: 0 <= i < j < |rows| ==> rows[i].name != rows[j].name
  {
    var items := Items(t);
    var sortedStats := SortBy(items, ByPnlDescending);
    SortByOrders(items, ByPnlDescending);
    rows, total := SummaryRows(sortedStats);
    SumByPermutation(sortedStats, items, PnlOf);
    RowsSound(t, sortedStats, rows);
    RowsByPnl(sortedStats, rows);
    ListsEach(t, sortedStats, rows);
    NamesOnce(t, sortedStats, rows);
  }

  /** Each row shows its own strategy's counters, with a win rate between 0 and 100. */
  lemma RowsSound(t: Tally, sortedStats: seq<(string, StrategyStats)>, rows: seq<SummaryRow>)
    requires Consistent(t) && multiset(sortedStats) == multiset(Items(t))
    requires rows == RowsOf(sortedStats)
    ensures forall i :: 0 <= i < |rows| ==> rows[i].name in t.stats && rows[i] == SummaryRowOf((rows[i].name, t.stats[rows[i].name]))
    ensures forall i :: 0 <= i < |rows| ==> 0.0 <= rows[i].winRate <= 100.0 && (rows[i].trades == 0 ==> rows[i].winRate == 0.0)
  {
    forall i | 0 <= i < |rows|
      ensures rows[i].name in t.stats && rows[i] == SummaryRowOf((rows[i].name, t.stats[rows[i].name]))
      ensures 0.0 <= rows[i].winRate <= 100.0 && (rows[i].trades == 0 ==> rows[i].winRate == 0.0)
    {
      assert sortedStats[i] in multiset(Items(t));
      ItemSound(t, sortedStats[i]);
    }
  }

  /** Rows of items sorted by descending PnL list the PnL highest first. */
  lemma RowsByPnl(sortedStats: seq<(string, StrategyStats)>, rows: seq<SummaryRow>)
    requires SortedBy(sortedStats, ByPnlDescending)
    requires rows == RowsOf(sortedStats)
    ensures forall i, j :: 0 <= i < j < |rows| ==> rows[i].pnl >= rows[j].pnl
  {
    forall i, j | 0 <= i < j < |rows|
      ensures rows[i].pnl >= rows[j].pnl
    {
      assert ByPnlDescending(sortedStats[i]) <= ByPnlDescending(sortedStats[j]);
    }
  }

  /** Every strategy of the tally has a row. */
  lemma ListsEach(t: Tally, sortedStats: seq<(string, StrategyStats)>, rows: seq<SummaryRow>)
    requires Consistent(t) && multiset(sortedStats) == multiset(Items(t))
    requires rows == RowsOf(sortedStats)
    ensures forall n :: n in t.stats ==> exists i :: 0 <= i < |rows| && rows[i].name == n
  {
    forall n | n in t.stats
      ensures exists i :: 0 <= i < |rows| && rows[i].name == n
    {
      var k :| 0 <= k < |t.names| && t.names[k] == n;
      assert Items(t)[k] in multiset(sortedStats);
      var i :| 0 <= i < |sortedStats| && sortedStats[i] == Items(t)[k];
      assert rows[i].name == n;
    }
  }

  /** No strategy has two rows. */
  lemma NamesOnce(t: Tally, sortedStats: seq<(string, StrategyStats)>, rows: seq<SummaryRow>)
    requires Consistent(t) && multiset(sortedStats) == multiset(Items(t))
    requires rows == RowsOf(sortedStats)
    ensures forall i, j :: 0 <= i < j < |rows| ==> rows[i].name != rows[j].name
  {
    assert NoDuplicates(Items(t)) by {
      forall i, j | 0 <= i < j < |Items(t)|
        ensures Items(t)[i] != Items(t)[j]
      {
        assert t.names[i] != t.names[j];
      }
    }
    PermutationNoDuplicates(Items(t), sortedStats);
    forall i, j | 0 <= i < j < |rows|
      ensures rows[i].name != rows[j].name
    {
      assert sortedStats[i] in multiset(Items(t)) && sortedStats[j] in multiset(Items(t));
      ItemSound(t, sortedStats[i]);
      ItemSound(t, sortedStats[j]);
      assert sortedStats[i] != sortedStats[j];
    }
  }

  /**
   * One refresh of the dashboard: read the log, then summarise it. Each row
   * carries its strategy's PnL and trade count as summed over the log.
   */
  method Refresh(lines: seq<Line>) returns (rows: seq<SummaryRow>, total: real)
    ensures |rows| == |TallyOf(lines).names|
    ensures forall i, j :: 0 <= i < j < |rows| ==> rows[i].pnl >= rows[j].pnl
    ensures total == SumBy(Items(TallyOf(lines)), PnlOf)
    ensures rows == RowsOf(SortBy(Items(TallyOf(lines)), ByPnlDescending))
    ensures forall i :: 0 <= i < |rows| ==>
              rows[i].pnl == SettledPnl(lines, rows[i].name) && rows[i].trades == SettledCount(lines, rows[i].name)
    ensures forall i, j :: 0 <= i < j < |rows| ==> rows[i].name != rows[j].name
  {
    var stats, names := ReadLog(lines);
    rows, total := Summarize(Tally(stats, names));
    forall i | 0 <= i < |rows|
      ensures rows[i].pnl == SettledPnl(lines, rows[i].name) && rows[i].trades == SettledCount(lines, rows[i].name)
    {
      TallyMatchesSums(lines, rows[i].name);
    }
  }
}
