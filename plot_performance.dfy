// The performance report: every row of the trade log gets a synthetic
// reverse ("[R]") twin that takes the other side, and each strategy, original
// or reverse, is summarised by its total PnL, win rate and maximum drawdown.
module PlotPerformance {
  import opened Numerics
  import opened Wrappers
  import opened Collections
  import ShadowRunner

  const ReversePrefix: string := "[R] "
  /** The fee the synthesis charges on a reverse payout. */
  const SyntheticFee: real := 0.02

  /**
   * A row of the log frame, in timestamp order. `price` and `sizeUsdc` are
   * None when the column is absent.
   */
  datatype LogRow = LogRow(strategy: string, timestamp: int, pnl: real, action: string, tid: Option<string>,
                           price: Option<real>, sizeUsdc: Option<real>)

  /** What the synthesis remembers of an opened tid. */
  datatype EntryInfo = EntryInfo(price: real, size: real)

  /** What a tid without an OPEN row defaults to. */
  const DefaultEntry: EntryInfo := EntryInfo(0.5, 0.0)

  function EntryOf(row: LogRow): EntryInfo
  {
    EntryInfo(row.price.GetOr(0.5), row.sizeUsdc.GetOr(0.0))
  }

  /** `trade_info` after the rows: the entry of the latest OPEN row of each tid. */
  function InfoAfter(rows: seq<LogRow>): map<Option<string>, EntryInfo>
  {
    if |rows| == 0 then map[]
    else
      var prior := InfoAfter(rows[..|rows| - 1]);
      var row := rows[|rows| - 1];
      if row.action == "OPEN" then prior[row.tid := EntryOf(row)] else prior
  }

  function InfoFor(info: map<Option<string>, EntryInfo>, tid: Option<string>): EntryInfo
  {
    if tid in info then info[tid] else DefaultEntry
  }

  /** A tid no OPEN row mentions has no entry. */
  lemma {:induction false} NoOpenNoEntry(rows: seq<LogRow>, tid: Option<string>)
    requires forall k :: 0 <= k < |rows| && rows[k].action == "OPEN" ==> rows[k].tid != tid
    ensures tid !in InfoAfter(rows)
  {
    if |rows| > 0 {
      NoOpenNoEntry(rows[..|rows| - 1], tid);
    }
  }

  /** The entry of a tid is that of its latest OPEN row. */
  lemma {:induction false} LatestOpenWins(rows: seq<LogRow>, k: nat)
    requires k < |rows| && rows[k].action == "OPEN"
    requires forall j :: k < j < |rows| && rows[j].action == "OPEN" ==> rows[j].tid != rows[k].tid
    ensures rows[k].tid in InfoAfter(rows) && InfoAfter(rows)[rows[k].tid] == EntryOf(rows[k])
  {
    if k < |rows| - 1 {
      LatestOpenWins(rows[..|rows| - 1], k);
    }
  }

  /**
   * The reverse twin of a row, given the remembered entry of its tid: a WIN
   * of the original is a LOSS of the whole stake, a LOSS a WIN paying one
   * dollar a share at the reverse entry price, less the fee; any other
   * action keeps its name and has no PnL.
   */
  function AntiRecord(row: LogRow, info: EntryInfo): (r: LogRow)
    ensures r.strategy == ReversePrefix + row.strategy && r.timestamp == row.timestamp && r.tid == row.tid
    ensures r.sizeUsdc == row.sizeUsdc && r.price == Some(ShadowRunner.AntiPrice(info.price))
    ensures row.action == "WIN" ==> r.action == "LOSS" && r.pnl == -info.size
    ensures row.action == "LOSS" ==> r.action == "WIN"
    ensures row.action != "WIN" && row.action != "LOSS" ==> r.action == row.action && r.pnl == 0.0
  {
    var antiEntry := ShadowRunner.AntiPrice(info.price);
    var pnl :=
      if row.action == "WIN" then -info.size
      else if row.action == "LOSS" then
        if antiEntry > 0.0 then
          var payout := info.size / antiEntry * 1.0;
          var fee := payout * SyntheticFee;
          payout - fee - info.size
        else 0.0
      else 0.0;
    var action := if row.action == "WIN" then "LOSS" else if row.action == "LOSS" then "WIN" else row.action;
    row.(strategy := ReversePrefix + row.strategy, pnl := pnl, price := Some(antiEntry), action := action)
  }

  /**
   * Against the live shadow bot: the reverse of a WIN books what the shadow
   * books on a lost fade of the same stake, and the reverse of a LOSS books
   * what the shadow books on a won fade less a 2% fee on the payout.
   */
  lemma SyntheticVersusShadow(row: LogRow, info: EntryInfo, b: ShadowRunner.AntiBook, pos: ShadowRunner.AntiPosition)
    requires pos.size == info.size && pos.entryPrice == ShadowRunner.AntiPrice(info.price) && pos.entryPrice > 0.0
    requires pos.shares == pos.size / pos.entryPrice
    ensures row.action == "WIN" ==>
              AntiRecord(row, info).pnl == ShadowRunner.FadeLost(b, pos).stats.pnl - b.stats.pnl
    ensures row.action == "LOSS" ==>
              AntiRecord(row, info).pnl == ShadowRunner.FadeWon(b, pos).stats.pnl - b.stats.pnl - SyntheticFee * pos.shares
  {
  }

  /** The body of the synthesis loop for one row. */
  method ReverseRow(row: LogRow, info: EntryInfo) returns (antiRecord: LogRow)
    ensures antiRecord == AntiRecord(row, info)
  {
    var antiPnl := 0.0;
    var antiAction := row.action;
    var antiEntryPrice := 1.0 - info.price + 0.02;
    if antiEntryPrice >= 1.0 {
      antiEntryPrice := 0.99;
    }
    if row.action == "WIN" {
      antiPnl := -info.size;
      antiAction := "LOSS";
    } else if row.action == "LOSS" {
      if antiEntryPrice > 0.0 {
        var shares := info.size / antiEntryPrice;
        var payout := shares * 1.0;
        var fee := payout * 0.02;
        var netPayout := payout - fee;
        antiPnl := netPayout - info.size;
      } else {
        antiPnl := 0.0;
      }
      antiAction := "WIN";
    } else if row.action == "OPEN" {
      antiPnl := 0.0;
    }
    antiRecord := row.(strategy := "[R] " + row.strategy, pnl := antiPnl, price := Some(antiEntryPrice),
                       action := antiAction);
  }

  /** The reverse twin of row `k`, built from the entry its tid has once that row is read. */
  function AntiAt(rows: seq<LogRow>, k: nat): LogRow
    requires k < |rows|
  {
    AntiRecord(rows[k], InfoFor(InfoAfter(rows[..k + 1]), rows[k].tid))
  }

  /** The synthesis loop: one reverse row per row, in the same order. */
  method SynthesizeReverse(rows: seq<LogRow>) returns (anti: seq<LogRow>)
    ensures |anti| == |rows|
    ensures forall i :: 0 <= i < |rows| ==> anti[i] == AntiAt(rows, i)
  {
    var tradeInfo: map<Option<string>, EntryInfo> := map[];
    anti := [];
    for i := 0 to |rows|
      invariant tradeInfo == InfoAfter(rows[..i]) && |anti| == i
      invariant forall k :: 0 <= k < i ==> anti[k] == AntiAt(rows, k)
    {
      var row := rows[i];
      assert rows[..i + 1][..i] == rows[..i];
      if row.action == "OPEN" {
        tradeInfo := tradeInfo[row.tid := EntryOf(row)];
      }
      assert tradeInfo == InfoAfter(rows[..i + 1]);
      var info := if row.tid in tradeInfo then tradeInfo[row.tid] else DefaultEntry;
      var antiRecord := ReverseRow(row, info);
      assert antiRecord == AntiAt(rows, i);
      anti := anti + [antiRecord];
    }
  }

  /** The strategies of the frame in order of first appearance, each once. */
  function Strategies(rows: seq<LogRow>): (r: seq<string>)
    ensures NoDuplicates(r)
    ensures forall s :: s in r <==> exists k :: 0 <= k < |rows| && rows[k].strategy == s
  {
    if |rows| == 0 then []
    else
      var n := |rows| - 1;
      Insert(Strategies(rows[..n]), rows[n].strategy)
  }

  /** The rows of one strategy, in frame order. */
  function RowsOf(rows: seq<LogRow>, strategy: string): (r: seq<LogRow>)
    ensures forall x :: x in r <==> x in rows && x.strategy == strategy
  {
    if |rows| == 0 then []
    else RowsOf(rows[..|rows| - 1], strategy) + (if rows[|rows| - 1].strategy == strategy then [rows[|rows| - 1]] else [])
  }

  function Pnls(rows: seq<LogRow>): (r: seq<real>)
    ensures |r| == |rows| && forall k :: 0 <= k < |rows| ==> r[k] == rows[k].pnl
  {
    if |rows| == 0 then [] else Pnls(rows[..|rows| - 1]) + [rows[|rows| - 1].pnl]
  }

  function CountAction(rows: seq<LogRow>, action: string): (n: nat)
    ensures n <= |rows|
  {
    if |rows| == 0 then 0
    else CountAction(rows[..|rows| - 1], action) + (if rows[|rows| - 1].action == action then 1 else 0)
  }

  /** Cumulative PnL, its running maximum and the deepest fall below it, over a non-empty series. */
  datatype Drawdown = Drawdown(cum: real, peak: real, mdd: real)

  function DrawdownOf(p: seq<real>): Drawdown
    requires |p| > 0
  {
    if |p| == 1 then Drawdown(p[0], p[0], 0.0)
    else
      var d := DrawdownOf(p[..|p| - 1]);
      var cum := d.cum + p[|p| - 1];
      var peak := Max(d.peak, cum);
      Drawdown(cum, peak, Min(d.mdd, cum - peak))
  }

  /** The maximum drawdown: the deepest fall of the cumulative PnL below its running maximum, 0 without rows. */
  function MaxDrawdown(p: seq<real>): real
  {
    if |p| == 0 then 0.0 else DrawdownOf(p).mdd
  }

  /** The cumulative PnL after the first `k` rows. */
  function Cum(p: seq<real>, k: nat): real
    requires k <= |p|
  {
    Sum(p[..k])
  }

  lemma CumStep(p: seq<real>, k: nat)
    requires 1 <= k <= |p|
    ensures Cum(p, k) == Cum(p, k - 1) + p[k - 1]
    ensures k < |p| ==> Cum(p[..|p| - 1], k) == Cum(p, k)
  {
    assert p[..k][..k - 1] == p[..k - 1];
    if k < |p| {
      assert p[..|p| - 1][..k] == p[..k];
    }
  }

  /** The running state: the cumulative PnL so far, and a peak that is the largest cumulative value seen. */
  lemma {:induction false} DrawdownPeak(p: seq<real>)
    requires |p| > 0
    ensures DrawdownOf(p).cum == Cum(p, |p|)
    ensures forall k :: 1 <= k <= |p| ==> Cum(p, k) <= DrawdownOf(p).peak
    ensures exists k :: 1 <= k <= |p| && Cum(p, k) == DrawdownOf(p).peak
  {
    var n := |p|;
    if n == 1 {
      CumStep(p, 1);
      assert Cum(p, 1) == DrawdownOf(p).peak;
    } else {
      var q := p[..n - 1];
      DrawdownPeak(q);
      CumStep(p, n);
      assert q == p[..n - 1];
      forall k | 1 <= k < n
        ensures Cum(q, k) == Cum(p, k)
      {
        CumStep(p, k);
        assert p[..n - 1][..k] == p[..k];
      }
      var j :| 1 <= j <= n - 1 && Cum(q, j) == DrawdownOf(q).peak;
      if DrawdownOf(p).peak == DrawdownOf(q).peak {
        assert Cum(p, j) == DrawdownOf(p).peak;
      } else {
        assert Cum(p, n) == DrawdownOf(p).peak;
      }
    }
  }

  /** No fall from one point of the cumulative PnL to a later one is deeper than the maximum drawdown. */
  lemma {:induction false} MaxDrawdownBound(p: seq<real>, i: nat, j: nat)
    requires 1 <= i <= j <= |p|
    ensures MaxDrawdown(p) <= Cum(p, j) - Cum(p, i)
  {
    var n := |p|;
    if n > 1 {
      var q := p[..n - 1];
      DrawdownPeak(p);
      if j < n {
        MaxDrawdownBound(q, i, j);
        assert q[..i] == p[..i] && q[..j] == p[..j];
      }
    }
  }

  /** ...and some fall from a point to a later one is exactly that deep. */
  lemma {:induction false} MaxDrawdownAttained(p: seq<real>)
    requires |p| > 0
    ensures exists i, j :: 1 <= i <= j <= |p| && MaxDrawdown(p) == Cum(p, j) - Cum(p, i)
  {
    var n := |p|;
    if n == 1 {
      assert MaxDrawdown(p) == Cum(p, 1) - Cum(p, 1);
    } else {
      var q := p[..n - 1];
      MaxDrawdownAttained(q);
      DrawdownPeak(p);
      if MaxDrawdown(p) == MaxDrawdown(q) {
        var i, j :| 1 <= i <= j <= n - 1 && MaxDrawdown(q) == Cum(q, j) - Cum(q, i);
        assert q[..i] == p[..i] && q[..j] == p[..j];
        assert MaxDrawdown(p) == Cum(p, j) - Cum(p, i);
      } else {
        var k :| 1 <= k <= n && Cum(p, k) == DrawdownOf(p).peak;
        assert MaxDrawdown(p) == Cum(p, n) - Cum(p, k);
      }
    }
  }

  /** The maximum drawdown is never positive. */
  lemma MaxDrawdownNonPositive(p: seq<real>)
    ensures MaxDrawdown(p) <= 0.0
  {
    if |p| > 0 {
      MaxDrawdownBound(p, 1, 1);
    }
  }

  datatype StrategyMetrics = StrategyMetrics(strategy: string, totalPnl: real, winRate: real, trades: nat,
                                             mdd: real, finalEquity: real)

  /**
   * The metrics of one strategy: only WIN and LOSS rows count as trades and
   * toward the win rate; the total and the final equity are the PnL sum.
   */
  function MetricsOf(rows: seq<LogRow>, strategy: string): (m: StrategyMetrics)
    ensures 0.0 <= m.winRate <= 100.0 && m.mdd <= 0.0 && m.totalPnl == m.finalEquity
    ensures m.trades == CountAction(RowsOf(rows, strategy), "WIN") + CountAction(RowsOf(rows, strategy), "LOSS")
    ensures m.trades == 0 ==> m.winRate == 0.0
  {
    var mine := RowsOf(rows, strategy);
    var pnls := Pnls(mine);
    var wins := CountAction(mine, "WIN");
    var closed := wins + CountAction(mine, "LOSS");
    MaxDrawdownNonPositive(pnls);
    StrategyMetrics(strategy, Sum(pnls), Percent(wins, closed), closed, MaxDrawdown(pnls), Sum(pnls))
  }

  /** The metrics of every strategy of a frame, in order of first appearance. */
  function MetricsTable(rows: seq<LogRow>): (table: seq<StrategyMetrics>)
    ensures |table| == |Strategies(rows)|
    ensures forall k :: 0 <= k < |table| ==> table[k] == MetricsOf(rows, Strategies(rows)[k])
  {
    var names := Strategies(rows);
    seq(|names|, k requires 0 <= k < |names| => MetricsOf(rows, names[k]))
  }

  /**
   * `plot_performance` without the file and the drawing: the log frame with
   * its reverse rows appended, and the metrics of every strategy in it.
   */
  method PlotPerformance(rows: seq<LogRow>) returns (frame: seq<LogRow>, metrics: seq<StrategyMetrics>)
    ensures |frame| == 2 * |rows| && frame[..|rows|] == rows
    ensures forall i :: 0 <= i < |rows| ==> frame[|rows| + i] == AntiAt(rows, i)
    ensures metrics == MetricsTable(frame)
  {
    var anti := SynthesizeReverse(rows);
    frame := rows + anti;
    metrics := MetricsTable(frame);
  }

  /** Each strategy of the log has its reverse twin in the report. */
  lemma {:induction false} EveryStrategyHasReverse(rows: seq<LogRow>, anti: seq<LogRow>, k: nat)
    requires |anti| == |rows| && k < |rows|
    requires forall i :: 0 <= i < |rows| ==> anti[i].strategy == ReversePrefix + rows[i].strategy
    ensures rows[k].strategy in Strategies(rows + anti)
    ensures ReversePrefix + rows[k].strategy in Strategies(rows + anti)
  {
    assert (rows + anti)[k] == rows[k];
    assert (rows + anti)[|rows| + k] == anti[k];
  }
}
