// The whale copy-trading paper bot: it watches the activity feed of tracked
// wallets, mirrors their fresh BUYs (at once when the simulated fill is
// within a slippage budget, else through a one-minute pending queue), mirrors
// their SELLs as exits, and reviews every open copy against the market for
// settlement, take-profit, trailing stop, stop-loss and timeout.
module WhaleCopyBot {
  import opened Numerics
  import opened Wrappers
  import opened Text
  import opened Collections
  import ClientWrapper

  const MaxPositions: nat := 10
  /** The seen-id memory is trimmed when it exceeds this many ids... */
  const SeenLimit: nat := 10000
  /** ...by dropping this many. */
  const SeenDrop: nat := 5000
  /** Only trades at most this many seconds old are copied. */
  const MaxTradeAge: int := 1800
  /** A whale price at or above this means the market is about to settle. */
  const NearSettledPrice: real := 0.95
  const PriceCeiling: real := 0.99
  const PendingLifetime: int := 60
  const MaxCopyBet: real := 100.0
  const CopyBetFraction: real := 0.05
  const MinCopyBet: real := 1.0
  const SellSlippage: real := 0.02
  const TakeProfitRoi: real := 0.30
  const TrailArmRoi: real := 0.10
  const TrailDropRoi: real := -0.15
  const StopLossRoi: real := -0.20
  const MaxHoldSeconds: int := 259200

  /**
   * One entry of a wallet's activity feed. `txId` is the transaction hash
   * (or id), "" when both are missing; `timestamp` is None when it cannot be
   * parsed.
   */
  datatype Activity = Activity(txId: string, kind: string, side: string, conditionId: string, outcomeIndex: nat,
                               timestamp: Option<int>, price: real, size: real, asset: string,
                               title: string, outcome: string, slug: string, marketId: string)

  /** The position key: condition id followed by the outcome index. */
  function Tid(tx: Activity): string
  {
    tx.conditionId + ClientWrapper.NatToString(tx.outcomeIndex)
  }

  // ---------------------------------------------------------------------
  // Pricing a copy.
  // ---------------------------------------------------------------------

  /** The slippage budget: by whale size tier, one cent more for a wallet scoring 80 or more. */
  function SlippageModifier(whaleSize: real, score: real): (m: real)
    ensures 0.005 <= m <= 0.06
  {
    var tier :=
      if whaleSize >= 5000.0 then 0.05
      else if whaleSize >= 1000.0 then 0.03
      else if whaleSize >= 100.0 then 0.01
      else 0.005;
    if score >= 80.0 then tier + 0.01 else tier
  }

  /** A bigger trade or a better wallet never gets a smaller budget. */
  lemma SlippageMonotone(size1: real, size2: real, score1: real, score2: real)
    requires size1 <= size2 && score1 <= score2
    ensures SlippageModifier(size1, score1) <= SlippageModifier(size2, score2)
  {
  }

  /** The highest price the bot accepts for a copy. */
  function TargetPrice(whalePrice: real, whaleSize: real, score: real): (t: real)
    ensures t <= PriceCeiling
    ensures 0.0 <= whalePrice <= PriceCeiling ==> whalePrice <= t
  {
    var m := SlippageModifier(whaleSize, score);
    var t := Min(PriceCeiling, whalePrice * (1.0 + m));
    if 0.0 <= whalePrice then MulNonNegative(whalePrice, m); t else t
  }

  /** The stake: 5% of the bankroll capped at 100, weighted by the score clamped to [0, 100]. */
  function CopyBetSize(bankroll: real, score: real): (b: real)
    ensures bankroll >= 0.0 ==> 0.0 <= b <= Min(bankroll * CopyBetFraction, MaxCopyBet)
    ensures score >= 100.0 ==> b == Min(bankroll * CopyBetFraction, MaxCopyBet)
    ensures score <= 0.0 ==> b == 0.0
  {
    var base := Min(bankroll * CopyBetFraction, MaxCopyBet);
    var weight := Clip(0.0, 1.0, score / 100.0);
    if bankroll >= 0.0 then
      Weighted(base, weight);
      base * weight
    else base * weight
  }

  /** A better score never shrinks the stake. */
  lemma CopyBetMonotone(bankroll: real, score1: real, score2: real)
    requires bankroll >= 0.0 && score1 <= score2
    ensures CopyBetSize(bankroll, score1) <= CopyBetSize(bankroll, score2)
  {
    var base := Min(bankroll * CopyBetFraction, MaxCopyBet);
    assert base >= 0.0;
    DivLeft(score1, score2, 100.0);
    var w1, w2 := Clip(0.0, 1.0, score1 / 100.0), Clip(0.0, 1.0, score2 / 100.0);
    assert Min(1.0, score1 / 100.0) <= Min(1.0, score2 / 100.0);
    assert w1 <= w2;
    MulLeft(w1, w2, base);
    assert CopyBetSize(bankroll, score1) == base * w1;
    assert CopyBetSize(bankroll, score2) == base * w2;
  }

  // ---------------------------------------------------------------------
  // Screening an activity.
  // ---------------------------------------------------------------------

  /** What the activity loop does with one entry before any fill is simulated. */
  datatype Screen =
    | Skip              // no id, or an id already seen: nothing at all
    | Mark              // the id is recorded and nothing else happens
    | Mirror(tid: string) // a SELL on a held copy: exit it too
    | Buy               // a fresh BUY that passed every filter

  /**
   * The checks of `_check_whale_activity` in their order. `marketOk` is the
   * verdict of the market-page filter (expiry within 30 days, category match;
   * a failed request lets the trade through).
   */
  function ScreenActivity(tx: Activity, seen: seq<string>, held: set<string>, startupTime: int, now: int,
                          marketOk: bool): Screen
  {
    if tx.txId == "" || tx.txId in seen then Skip
    else if tx.kind == "TRADE" && tx.side == "SELL" then
      (if Tid(tx) in held then Mirror(Tid(tx)) else Mark)
    else if tx.kind != "TRADE" || tx.side != "BUY" then Mark
    else if tx.timestamp.None? || tx.timestamp.value < startupTime || now - tx.timestamp.value > MaxTradeAge then Mark
    else if tx.price >= NearSettledPrice || |held| >= MaxPositions || !marketOk then Mark
    else Buy
  }

  /**
   * A copied BUY is new, recent, below the near-settlement price and finds a
   * free slot; a mirrored exit is a SELL on a held copy; a seen id is never
   * acted on twice.
   */
  lemma ScreenFilters(tx: Activity, seen: seq<string>, held: set<string>, startupTime: int, now: int, marketOk: bool)
    ensures var s := ScreenActivity(tx, seen, held, startupTime, now, marketOk);
            (tx.txId in seen ==> s == Skip) &&
            (s == Buy ==> tx.txId != "" && tx.txId !in seen && tx.side == "BUY" && tx.timestamp.Some? &&
                          startupTime <= tx.timestamp.value && now - tx.timestamp.value <= MaxTradeAge &&
                          tx.price < NearSettledPrice && |held| < MaxPositions && marketOk) &&
            (s.Mirror? ==> tx.side == "SELL" && s.tid in held && s.tid == Tid(tx))
  {
  }

  /** An order waiting up to a minute for the simulated fill to come within the target. */
  datatype PendingOrder = PendingOrder(tx: Activity, whaleName: string, score: real, whalePrice: real,
                                       targetPrice: real, betSize: real, expiresAt: int)

  datatype BuyOutcome = CopyNow(price: real) | Queue(order: PendingOrder)

  function MaxNat(a: nat, b: nat): nat
  {
    if a >= b then a else b
  }

  /**
   * The fill decision for a screened BUY. `vwap(token, notional)` is the
   * volume-weighted price a market buy of `notional` would get, None when
   * the book cannot be read or is too thin.
   */
  function BuyStep(tx: Activity, name: string, score: real, bankroll: real, now: int,
                   vwap: (string, real) -> Option<real>): (r: BuyOutcome)
    ensures var v := vwap(tx.asset, CopyBetSize(bankroll, score));
            var target := TargetPrice(tx.price, tx.size, score);
            (r.CopyNow? <==> v.Some? && v.value <= target) &&
            (r.CopyNow? ==> r.price == v.value && r.price <= PriceCeiling) &&
            (r.Queue? ==> r.order.expiresAt == now + PendingLifetime && r.order.targetPrice == target &&
                          r.order.betSize == CopyBetSize(bankroll, score) && r.order.tx == tx)
  {
    var target := TargetPrice(tx.price, tx.size, score);
    var bet := CopyBetSize(bankroll, score);
    var v := vwap(tx.asset, bet);
    if v.Some? && v.value <= target then CopyNow(v.value)
    else Queue(PendingOrder(tx, name, score, tx.price, target, bet, now + PendingLifetime))
  }

  /** The venue's simulated fills are positive prices. */
  ghost predicate PositiveFills(vwap: (string, real) -> Option<real>)
  {
    forall token, notional :: vwap(token, notional).Some? ==> vwap(token, notional).value > 0.0
  }

  /** A fresh recent BUY from a wallet with no copies open passes the screen. */
  lemma FreshBuyPassesScreen()
    ensures ScreenActivity(Activity("0xabc", "TRADE", "BUY", "0xc", 0, Some(1000), 0.40, 500.0, "tok",
                                    "Will it rain?", "Yes", "rain", "m1"),
                           [], {}, 900, 1030, true) == Buy
  {
    assert "0xabc" !in [];
  }

  // ---------------------------------------------------------------------
  // Pending orders.
  // ---------------------------------------------------------------------

  predicate Fills(o: PendingOrder, vwap: (string, real) -> Option<real>)
  {
    var v := vwap(o.tx.asset, o.betSize);
    v.Some? && v.value <= o.targetPrice
  }

  /** The queue after one pass: expired and filled orders leave, the rest keep their order. */
  function KeptOrders(os: seq<PendingOrder>, now: int, vwap: (string, real) -> Option<real>): (r: seq<PendingOrder>)
    ensures |r| <= |os|
  {
    if |os| == 0 then []
    else
      var last := os[|os| - 1];
      var rest := KeptOrders(os[..|os| - 1], now, vwap);
      if now > last.expiresAt || Fills(last, vwap) then rest else rest + [last]
  }

  /** An order stays pending exactly when it has not expired and does not fill. */
  lemma {:induction false} KeptOrdersMembers(os: seq<PendingOrder>, now: int, vwap: (string, real) -> Option<real>)
    ensures forall o :: o in KeptOrders(os, now, vwap) <==> o in os && now <= o.expiresAt && !Fills(o, vwap)
  {
    if |os| > 0 {
      KeptOrdersMembers(os[..|os| - 1], now, vwap);
      assert forall o :: o in os <==> o in os[..|os| - 1] || o == os[|os| - 1];
    }
  }

  /** The kept orders are a subsequence: a second pass at the same instant keeps them all. */
  lemma {:induction false} KeptOrdersIdempotent(os: seq<PendingOrder>, now: int, vwap: (string, real) -> Option<real>)
    ensures KeptOrders(KeptOrders(os, now, vwap), now, vwap) == KeptOrders(os, now, vwap)
  {
    var r := KeptOrders(os, now, vwap);
    KeptOrdersMembers(os, now, vwap);
    KeepAll(r, now, vwap);
  }

  lemma {:induction false} KeepAll(os: seq<PendingOrder>, now: int, vwap: (string, real) -> Option<real>)
    requires forall o :: o in os ==> now <= o.expiresAt && !Fills(o, vwap)
    ensures KeptOrders(os, now, vwap) == os
  {
    if |os| > 0 {
      KeepAll(os[..|os| - 1], now, vwap);
      assert os[..|os| - 1] + [os[|os| - 1]] == os;
    }
  }

  /** The number of orders of `os` that fill and have not expired. */
  function FilledCount(os: seq<PendingOrder>, now: int, vwap: (string, real) -> Option<real>): (n: nat)
    ensures n <= |os|
  {
    if |os| == 0 then 0
    else
      var last := os[|os| - 1];
      FilledCount(os[..|os| - 1], now, vwap) + (if now <= last.expiresAt && Fills(last, vwap) then 1 else 0)
  }

  /** Filled and kept orders are disjoint parts of the queue. */
  lemma {:induction false} FilledAndKeptWithinQueue(os: seq<PendingOrder>, now: int, vwap: (string, real) -> Option<real>)
    ensures FilledCount(os, now, vwap) + |KeptOrders(os, now, vwap)| <= |os|
  {
    if |os| > 0 {
      FilledAndKeptWithinQueue(os[..|os| - 1], now, vwap);
    }
  }

  // ---------------------------------------------------------------------
  // Positions and their accounting.
  // ---------------------------------------------------------------------

  datatype WhalePosition = WhalePosition(whaleName: string, title: string, outcome: string, outcomeIndex: nat,
                                         entryPrice: real, sizeUsdc: real, shares: real, conditionId: string,
                                         marketId: string, slug: string, openedAt: int,
                                         currentPrice: real, peakPrice: real)

  /** Every open copy has a positive entry and a peak at or above it. */
  predicate Sound(pos: WhalePosition)
  {
    0.0 < pos.entryPrice <= pos.peakPrice
  }

  /** A fresh copy: the price it was bought at is its entry, current and peak price. */
  function NewPosition(tx: Activity, name: string, price: real, bet: real, now: int): (p: WhalePosition)
    requires price > 0.0
    ensures Sound(p) && p.currentPrice == p.entryPrice == p.peakPrice == price
    ensures p.shares * price == bet
  {
    MulDivCancel(bet, price);
    WhalePosition(name, tx.title, tx.outcome, tx.outcomeIndex, price, bet, bet / price, tx.conditionId,
                  tx.marketId, tx.slug, now, price, price)
  }

  datatype Stats = Stats(totalBets: nat, wins: nat, losses: nat, totalPnl: real)

  datatype Book = Book(bankroll: real, stats: Stats)

  /**
   * Cash minus realised profit. Opening a copy lowers it by the stake and
   * closing one raises it by the stake again, whatever the outcome, so it is
   * the initial bankroll minus the stakes still open.
   */
  function Capital(b: Book): real
  {
    b.bankroll - b.stats.totalPnl
  }

  /** `_execute_early_exit`: sell all shares at `price` less 2% slippage. */
  function EarlyExitBook(b: Book, pos: WhalePosition, price: real): (r: Book)
    ensures Capital(r) == Capital(b) + pos.sizeUsdc
    ensures r.stats.totalBets == b.stats.totalBets
    ensures r.stats.wins + r.stats.losses == b.stats.wins + b.stats.losses + 1
    ensures r.stats.wins == b.stats.wins + 1 <==> pos.shares * (price * (1.0 - SellSlippage)) >= pos.sizeUsdc
  {
    var payout := pos.shares * (price * (1.0 - SellSlippage));
    var profit := payout - pos.sizeUsdc;
    Book(b.bankroll + payout,
         if profit >= 0.0 then b.stats.(wins := b.stats.wins + 1, totalPnl := b.stats.totalPnl + profit)
         else b.stats.(losses := b.stats.losses + 1, totalPnl := b.stats.totalPnl + profit))
  }

  /** `_settle_as_win`: every share pays one dollar, no fee. */
  function WinBook(b: Book, pos: WhalePosition): (r: Book)
    ensures Capital(r) == Capital(b) + pos.sizeUsdc
    ensures r.bankroll == b.bankroll + pos.shares
    ensures r.stats == b.stats.(wins := b.stats.wins + 1, totalPnl := r.stats.totalPnl)
  {
    Book(b.bankroll + pos.shares,
         b.stats.(wins := b.stats.wins + 1, totalPnl := b.stats.totalPnl + (pos.shares - pos.sizeUsdc)))
  }

  /** `_settle_as_loss`: nothing is credited and the stake is lost. */
  function LossBook(b: Book, pos: WhalePosition): (r: Book)
    ensures Capital(r) == Capital(b) + pos.sizeUsdc
    ensures r.bankroll == b.bankroll
    ensures r.stats == b.stats.(losses := b.stats.losses + 1, totalPnl := r.stats.totalPnl)
  {
    Book(b.bankroll, b.stats.(losses := b.stats.losses + 1, totalPnl := b.stats.totalPnl - pos.sizeUsdc))
  }

  // ---------------------------------------------------------------------
  // Reviewing a position.
  // ---------------------------------------------------------------------

  /**
   * What the market page says about a copy: whether it is closed, the
   * winner as `get_market_winner` reports it, and the outcome's price when
   * it can be parsed.
   */
  datatype MarketView = MarketView(closed: bool, winner: Option<string>, price: Option<real>)

  datatype Reason = TakeProfit | TrailingStop | StopLoss | Timeout

  datatype Exit = Hold | Resolved(won: bool) | EarlyExit(reason: Reason)

  /** The copy's outcome won: it names the YES side and YES won, or the NO side and NO won, or it is the winner. */
  predicate Won(outcome: string, winner: Option<string>)
  {
    winner.Some? &&
    var isYes := ContainsAny(Upper(outcome), ClientWrapper.YesKeys);
    (winner.value == "YES" && isYes) || (winner.value == "NO" && !isYes) || winner.value == outcome
  }

  /** Record a new price: it becomes the current price and lifts the peak if higher. */
  function Remark(pos: WhalePosition, price: real): (r: WhalePosition)
    ensures r.currentPrice == price && r.peakPrice >= pos.peakPrice && r.peakPrice >= price
    ensures r.peakPrice == pos.peakPrice || r.peakPrice == price
    ensures r == pos.(currentPrice := price, peakPrice := r.peakPrice)
  {
    pos.(currentPrice := price, peakPrice := if price > pos.peakPrice then price else pos.peakPrice)
  }

  /** The early-exit triggers, first match wins, on a position whose price was just recorded. */
  function Trigger(pos: WhalePosition, now: int): Exit
    requires Sound(pos)
  {
    var roi := (pos.currentPrice - pos.entryPrice) / pos.entryPrice;
    var peakRoi := (pos.peakPrice - pos.entryPrice) / pos.entryPrice;
    if roi >= TakeProfitRoi then EarlyExit(TakeProfit)
    else if peakRoi >= TrailArmRoi && (pos.currentPrice - pos.peakPrice) / pos.peakPrice <= TrailDropRoi then
      EarlyExit(TrailingStop)
    else if roi <= StopLossRoi then EarlyExit(StopLoss)
    else if now - pos.openedAt > MaxHoldSeconds then EarlyExit(Timeout)
    else Hold
  }

  /**
   * `Trigger` with each ratio multiplied out by its (positive) base: the
   * form the review uses, so that a review never has to reason about
   * quotients.  `TriggerByPriceAgrees` shows it picks the same exit.
   */
  function TriggerByPrice(pos: WhalePosition, now: int): Exit
    requires Sound(pos)
  {
    var e := pos.entryPrice;
    var c := pos.currentPrice;
    var p := pos.peakPrice;
    if c - e >= TakeProfitRoi * e then EarlyExit(TakeProfit)
    else if p - e >= TrailArmRoi * e && c - p <= TrailDropRoi * p then EarlyExit(TrailingStop)
    else if c - e <= StopLossRoi * e then EarlyExit(StopLoss)
    else if now - pos.openedAt > MaxHoldSeconds then EarlyExit(Timeout)
    else Hold
  }

  /** On a sound position the multiplied-out triggers agree with the ratios, exit for exit. */
  lemma {:induction false} TriggerByPriceAgrees(pos: WhalePosition, now: int)
    requires Sound(pos)
    ensures TriggerByPrice(pos, now) == Trigger(pos, now)
  {
    var e := pos.entryPrice;
    var c := pos.currentPrice;
    var p := pos.peakPrice;
    DivAtLeast(c - e, e, TakeProfitRoi);
    DivAtLeast(p - e, e, TrailArmRoi);
    DivAtMost(c - p, p, TrailDropRoi);
    DivAtMost(c - e, e, StopLossRoi);
  }

  /**
   * The triggers without ratios: take-profit is a price of at least 1.3
   * times the entry; the trailing stop needs a peak of at least 1.1 times
   * the entry and a price at most 0.85 times the peak; stop-loss is a price
   * of at most 0.8 times the entry; a position held with a price strictly
   * between those bands leaves only on timeout.
   */
  lemma {:induction false} TriggerThresholds(pos: WhalePosition, now: int)
    requires Sound(pos)
    ensures var e := pos.entryPrice;
            var c := pos.currentPrice;
            var p := pos.peakPrice;
            var x := Trigger(pos, now);
            (x == EarlyExit(TakeProfit) <==> c >= 1.3 * e) &&
            (x == EarlyExit(TrailingStop) <==> c < 1.3 * e && p >= 1.1 * e && c <= 0.85 * p) &&
            (x == EarlyExit(StopLoss) ==> c <= 0.8 * e) &&
            (x == EarlyExit(Timeout) ==> now - pos.openedAt > MaxHoldSeconds) &&
            (x == Hold <==> 0.8 * e < c < 1.3 * e && !(p >= 1.1 * e && c <= 0.85 * p) &&
                            now - pos.openedAt <= MaxHoldSeconds)
  {
    var e := pos.entryPrice;
    var c := pos.currentPrice;
    var p := pos.peakPrice;
    DivAtLeast(c - e, e, TakeProfitRoi);
    DivAtLeast(p - e, e, TrailArmRoi);
    DivAtMost(c - p, p, TrailDropRoi);
    DivAtMost(c - e, e, StopLossRoi);
  }

  /**
   * `_settle_positions` on one copy. A winner other than "WAITING", or a
   * closed market, settles it; otherwise a readable price is recorded and
   * the triggers are tried; without a price nothing happens.
   */
  function Review(pos: WhalePosition, view: MarketView, now: int): (r: (Exit, WhalePosition))
    requires Sound(pos)
    ensures Sound(r.1) && r.1.peakPrice >= pos.peakPrice
    ensures r.1 == pos.(currentPrice := r.1.currentPrice, peakPrice := r.1.peakPrice)
    ensures r.0.Resolved? <==> (view.winner.Some? && view.winner.value != "WAITING") || view.closed
    ensures r.0.Resolved? ==> r.0.won == Won(pos.outcome, view.winner) && r.1 == pos
    ensures r.0.EarlyExit? ==> view.price.Some? && r.1.currentPrice == view.price.value
  {
    if (view.winner.Some? && view.winner.value != "WAITING") || view.closed then
      (Resolved(Won(pos.outcome, view.winner)), pos)
    else if view.price.None? then (Hold, pos)
    else
      var marked := Remark(pos, view.price.value);
      (TriggerByPrice(marked, now), marked)
  }

  /** An unsettled copy with a readable price leaves exactly when the ratio triggers say so, for the reason they give. */
  lemma ReviewUsesTriggers(pos: WhalePosition, view: MarketView, now: int)
    requires Sound(pos) && !((view.winner.Some? && view.winner.value != "WAITING") || view.closed)
    requires view.price.Some?
    ensures Sound(Remark(pos, view.price.value))
    ensures Review(pos, view, now).0 == Trigger(Remark(pos, view.price.value), now)
  {
    TriggerByPriceAgrees(Remark(pos, view.price.value), now);
  }

  /**
   * A closed market whose winner is unknown or still "WAITING" settles the
   * copy, and books it as a loss unless its outcome is literally "WAITING".
   */
  lemma ClosedWithoutWinnerIsLoss(pos: WhalePosition, view: MarketView, now: int)
    requires Sound(pos) && view.closed && (view.winner.None? || view.winner == Some("WAITING"))
    requires pos.outcome != "WAITING"
    ensures Review(pos, view, now).0 == Resolved(false)
  {
  }

  /** Settlement comes first: a decided market is settled whatever the price says. */
  lemma SettlementBeforeTriggers(pos: WhalePosition, view: MarketView, now: int)
    requires Sound(pos) && view.winner.Some? && view.winner.value != "WAITING"
    ensures Review(pos, view, now).0.Resolved?
    ensures Review(pos, view, now).1 == pos
  {
  }

  /** The state of a review pass: the positions, the book, and the tids to drop afterwards. */
  datatype Pass = Pass(positions: map<string, WhalePosition>, book: Book, removed: seq<string>)

  predicate AllSound(ps: map<string, WhalePosition>)
  {
    forall t :: t in ps ==> Sound(ps[t])
  }

  /** One copy of the pass. `lookup` is the market page of the copy, None when the request fails. */
  function ReviewOne(pass: Pass, now: int, lookup: WhalePosition -> Option<MarketView>, tid: string): (r: Pass)
    requires tid in pass.positions && AllSound(pass.positions)
    ensures r.positions.Keys == pass.positions.Keys && AllSound(r.positions)
    ensures r.removed == pass.removed || r.removed == pass.removed + [tid]
    ensures r.positions[tid].peakPrice >= pass.positions[tid].peakPrice
    ensures r.positions[tid].sizeUsdc == pass.positions[tid].sizeUsdc
    ensures r.book.stats.wins + r.book.stats.losses ==
              pass.book.stats.wins + pass.book.stats.losses + (|r.removed| - |pass.removed|)
    ensures Capital(r.book) == Capital(pass.book) + (if r.removed == pass.removed then 0.0 else pass.positions[tid].sizeUsdc)
  {
    var pos := pass.positions[tid];
    match lookup(pos)
    case None => pass
    case Some(view) =>
      var reviewed := Review(pos, view, now);
      var marked := reviewed.1;
      var ps := pass.positions[tid := marked];
      match reviewed.0
      case Hold => pass.(positions := ps)
      case Resolved(won) =>
        Pass(ps, if won then WinBook(pass.book, pos) else LossBook(pass.book, pos), pass.removed + [tid])
      case EarlyExit(_) =>
        Pass(ps, EarlyExitBook(pass.book, marked, marked.currentPrice), pass.removed + [tid])
  }

  /** Reviewing one copy leaves every other copy as it was. */
  lemma ReviewOneTouchesOnlyIt(pass: Pass, now: int, lookup: WhalePosition -> Option<MarketView>, tid: string)
    requires tid in pass.positions && AllSound(pass.positions)
    ensures forall t :: t in pass.positions && t != tid ==> ReviewOne(pass, now, lookup, tid).positions[t] == pass.positions[t]
  {
  }

  /** The pass over the copies from the `i`-th key of `order` on. */
  function ReviewFrom(order: seq<string>, pass: Pass, now: int, lookup: WhalePosition -> Option<MarketView>,
                      i: nat): (r: Pass)
    requires i <= |order| && AllSound(pass.positions) && forall t :: t in order ==> t in pass.positions
    ensures r.positions.Keys == pass.positions.Keys && AllSound(r.positions)
    ensures |r.removed| >= |pass.removed| && r.removed[..|pass.removed|] == pass.removed
    decreases |order| - i
  {
    if i == |order| then pass
    else ReviewFrom(order, ReviewOne(pass, now, lookup, order[i]), now, lookup, i + 1)
  }

  /** The pass from `i` is the pass from `i + 1` after reviewing `order[i]`. */
  lemma ReviewFromStep(order: seq<string>, pass: Pass, now: int, lookup: WhalePosition -> Option<MarketView>, i: nat)
    requires i < |order| && AllSound(pass.positions) && forall t :: t in order ==> t in pass.positions
    ensures var next := ReviewOne(pass, now, lookup, order[i]);
            (forall t :: t in order ==> t in next.positions) &&
            ReviewFrom(order, pass, now, lookup, i) == ReviewFrom(order, next, now, lookup, i + 1)
  {
  }

  /** A pass never lowers a peak and never changes a stake. */
  lemma {:induction false} ReviewKeepsPeaksAndStakes(order: seq<string>, pass: Pass, now: int,
                                                     lookup: WhalePosition -> Option<MarketView>, i: nat)
    requires i <= |order| && AllSound(pass.positions) && forall t :: t in order ==> t in pass.positions
    ensures var r := ReviewFrom(order, pass, now, lookup, i);
            forall t :: t in pass.positions ==>
              r.positions[t].peakPrice >= pass.positions[t].peakPrice &&
              r.positions[t].sizeUsdc == pass.positions[t].sizeUsdc
    decreases |order| - i
  {
    if i < |order| {
      ReviewOneTouchesOnlyIt(pass, now, lookup, order[i]);
      ReviewKeepsPeaksAndStakes(order, ReviewOne(pass, now, lookup, order[i]), now, lookup, i + 1);
    }
  }

  /** Every copy removed by a pass is booked exactly once: wins plus losses grow by the number removed. */
  lemma {:induction false} ReviewCounts(order: seq<string>, pass: Pass, now: int,
                                        lookup: WhalePosition -> Option<MarketView>, i: nat)
    requires i <= |order| && AllSound(pass.positions) && forall t :: t in order ==> t in pass.positions
    ensures var r := ReviewFrom(order, pass, now, lookup, i);
            r.book.stats.wins + r.book.stats.losses ==
              pass.book.stats.wins + pass.book.stats.losses + (|r.removed| - |pass.removed|) &&
            r.book.stats.totalBets == pass.book.stats.totalBets
    decreases |order| - i
  {
    if i < |order| {
      ReviewCounts(order, ReviewOne(pass, now, lookup, order[i]), now, lookup, i + 1);
    }
  }

  /** The stakes of the copies named by `ts`. */
  function Stakes(ts: seq<string>, ps: map<string, WhalePosition>): real
    requires forall t :: t in ts ==> t in ps
  {
    if |ts| == 0 then 0.0 else Stakes(ts[..|ts| - 1], ps) + ps[ts[|ts| - 1]].sizeUsdc
  }

  lemma {:induction false} StakesAgree(ts: seq<string>, ps: map<string, WhalePosition>, qs: map<string, WhalePosition>)
    requires forall t :: t in ts ==> t in ps && t in qs && ps[t].sizeUsdc == qs[t].sizeUsdc
    ensures Stakes(ts, ps) == Stakes(ts, qs)
  {
    if |ts| > 0 {
      StakesAgree(ts[..|ts| - 1], ps, qs);
    }
  }

  /** One copy of the pass conserves money the same way. */
  lemma ReviewOneConservesCapital(pass: Pass, now: int, lookup: WhalePosition -> Option<MarketView>, tid: string)
    requires tid in pass.positions && AllSound(pass.positions)
    requires forall t :: t in pass.removed ==> t in pass.positions
    ensures var r := ReviewOne(pass, now, lookup, tid);
            (forall t :: t in r.removed ==> t in r.positions) &&
            Capital(r.book) - Stakes(r.removed, r.positions) == Capital(pass.book) - Stakes(pass.removed, pass.positions)
  {
    var next := ReviewOne(pass, now, lookup, tid);
    StakesAgree(pass.removed, pass.positions, next.positions);
    if next.removed != pass.removed {
      assert next.removed[..|next.removed| - 1] == pass.removed;
    }
  }

  /**
   * Money is conserved across a pass: cash minus realised profit grows by
   * exactly the stakes of the copies the pass removes.
   */
  lemma {:induction false} ReviewConservesCapital(order: seq<string>, pass: Pass, now: int,
                                                  lookup: WhalePosition -> Option<MarketView>, i: nat)
    requires i <= |order| && AllSound(pass.positions) && forall t :: t in order ==> t in pass.positions
    requires forall t :: t in pass.removed ==> t in pass.positions
    ensures var r := ReviewFrom(order, pass, now, lookup, i);
            (forall t :: t in r.removed ==> t in r.positions) &&
            Capital(r.book) - Stakes(r.removed, r.positions) == Capital(pass.book) - Stakes(pass.removed, pass.positions)
    decreases |order| - i
  {
    if i < |order| {
      var next := ReviewOne(pass, now, lookup, order[i]);
      ReviewOneConservesCapital(pass, now, lookup, order[i]);
      ReviewConservesCapital(order, next, now, lookup, i + 1);
    }
  }

  // ---------------------------------------------------------------------
  // The bot's state as a value, and what each step does to it.
  // ---------------------------------------------------------------------

  /** Everything the bot changes, as one value: the fields of `WhaleCopyBot` but the start-up time. */
  datatype CopyState = CopyState(bankroll: real, seen: seq<string>, order: seq<string>,
                                 positions: map<string, WhalePosition>, pendingOrders: seq<PendingOrder>, stats: Stats)

  /** No id is remembered twice, `order` lists the held tids once each, and every copy is sound. */
  ghost predicate StateValid(st: CopyState)
  {
    NoDuplicates(st.seen) && NoDuplicates(st.order) && (forall t :: t in st.order <==> t in st.positions) &&
    AllSound(st.positions)
  }

  /** `_execute_copy_trade` on the state, at fill price `price`. */
  function Copied(st: CopyState, tx: Activity, name: string, score: real, price: real, now: int): CopyState
    requires price > 0.0
  {
    var bet := CopyBetSize(st.bankroll, score);
    if bet < MinCopyBet || Tid(tx) in st.positions then st
    else
      st.(bankroll := st.bankroll - bet, stats := st.stats.(totalBets := st.stats.totalBets + 1),
          positions := st.positions[Tid(tx) := NewPosition(tx, name, price, bet, now)],
          order := st.order + [Tid(tx)])
  }

  /**
   * A copy is opened only for a stake of at least a dollar on a tid not yet
   * held: the stake leaves the bankroll, one bet is counted, and the copy
   * enters at the fill price with shares worth the stake. Otherwise nothing
   * changes. The state stays valid either way.
   */
  lemma CopiedEffect(st: CopyState, tx: Activity, name: string, score: real, price: real, now: int)
    requires price > 0.0
    ensures var r := Copied(st, tx, name, score, price, now);
            var bet := CopyBetSize(st.bankroll, score);
            r.seen == st.seen && r.pendingOrders == st.pendingOrders &&
            st.positions.Keys <= r.positions.Keys <= st.positions.Keys + {Tid(tx)} &&
            (r == st <==> bet < MinCopyBet || Tid(tx) in st.positions) &&
            (r != st ==> Tid(tx) !in st.positions && bet >= MinCopyBet &&
                         r.bankroll == st.bankroll - bet && r.stats.totalBets == st.stats.totalBets + 1 &&
                         r.positions[Tid(tx)].entryPrice == price &&
                         r.positions[Tid(tx)].shares * price == bet && r.positions[Tid(tx)].sizeUsdc == bet) &&
            (StateValid(st) ==> StateValid(r))
  {
    var bet := CopyBetSize(st.bankroll, score);
    if !(bet < MinCopyBet || Tid(tx) in st.positions) {
      var r := Copied(st, tx, name, score, price, now);
      assert Tid(tx) in r.positions && Tid(tx) !in st.positions;
      assert r != st;
    }
  }

  /** The mirror exit on the state: the copy is dropped and sold at its last recorded price. */
  function Exited(st: CopyState, tid: string): CopyState
    requires tid in st.positions
  {
    var pos := st.positions[tid];
    var b := EarlyExitBook(Book(st.bankroll, st.stats), pos, pos.currentPrice);
    st.(bankroll := b.bankroll, stats := b.stats, positions := st.positions - {tid}, order := Remove(st.order, tid))
  }

  /**
   * One entry of the activity loop on the state. `marketOk` is the
   * market-page filter's verdict on this entry.
   */
  function Handled(st: CopyState, tx: Activity, name: string, score: real, startupTime: int, now: int,
                   marketOk: bool, vwap: (string, real) -> Option<real>): CopyState
    requires PositiveFills(vwap)
  {
    var marked := st.(seen := st.seen + [tx.txId]);
    match ScreenActivity(tx, st.seen, st.positions.Keys, startupTime, now, marketOk)
    case Skip => st
    case Mark => marked
    case Mirror(tid) =>
      ScreenFilters(tx, st.seen, st.positions.Keys, startupTime, now, marketOk);
      Exited(marked, tid)
    case Buy =>
      match BuyStep(tx, name, score, st.bankroll, now, vwap)
      case CopyNow(price) => Copied(marked, tx, name, score, price, now)
      case Queue(o) => marked.(pendingOrders := st.pendingOrders + [o])
  }

  /**
   * What one entry does: a skipped entry changes nothing; any other id is
   * remembered; a mirrored SELL removes its copy and books it as an early
   * exit at the last price; a BUY copied now is `_execute_copy_trade` at the
   * simulated fill; a queued BUY appends exactly its order; an entry only
   * marked changes nothing else.
   */
  lemma HandledEffects(st: CopyState, tx: Activity, name: string, score: real, startupTime: int, now: int,
                       marketOk: bool, vwap: (string, real) -> Option<real>)
    requires PositiveFills(vwap)
    ensures var s := ScreenActivity(tx, st.seen, st.positions.Keys, startupTime, now, marketOk);
            var r := Handled(st, tx, name, score, startupTime, now, marketOk, vwap);
            var marked := st.(seen := st.seen + [tx.txId]);
            (s == Skip ==> r == st) &&
            (s != Skip ==> r.seen == st.seen + [tx.txId]) &&
            (s == Mark ==> r == marked) &&
            (s.Mirror? ==> s.tid in st.positions && r.positions == st.positions - {s.tid} &&
                           r.pendingOrders == st.pendingOrders &&
                           Book(r.bankroll, r.stats) ==
                             EarlyExitBook(Book(st.bankroll, st.stats), st.positions[s.tid],
                                           st.positions[s.tid].currentPrice)) &&
            (s == Buy ==>
               match BuyStep(tx, name, score, st.bankroll, now, vwap)
               case CopyNow(price) => price > 0.0 && r == Copied(marked, tx, name, score, price, now)
               case Queue(o) => r == marked.(pendingOrders := st.pendingOrders + [o]))
  {
    ScreenFilters(tx, st.seen, st.positions.Keys, startupTime, now, marketOk);
  }

  /** An entry handled twice is handled once: the second time its id is remembered, or it has none. */
  lemma HandledOnce(st: CopyState, tx: Activity, name: string, score: real, startupTime: int, now: int,
                    marketOk: bool, vwap: (string, real) -> Option<real>)
    requires PositiveFills(vwap)
    ensures var r := Handled(st, tx, name, score, startupTime, now, marketOk, vwap);
            Handled(r, tx, name, score, startupTime, now, marketOk, vwap) == r
  {
    HandledEffects(st, tx, name, score, startupTime, now, marketOk, vwap);
    var r := Handled(st, tx, name, score, startupTime, now, marketOk, vwap);
    if tx.txId != "" && tx.txId !in st.seen {
      assert tx.txId in r.seen;
    }
    ScreenFilters(tx, r.seen, r.positions.Keys, startupTime, now, marketOk);
  }

  /** One entry keeps the state valid and never takes the book past the position limit. */
  lemma HandledBounded(st: CopyState, tx: Activity, name: string, score: real, startupTime: int, now: int,
                       marketOk: bool, vwap: (string, real) -> Option<real>)
    requires PositiveFills(vwap) && StateValid(st)
    ensures var r := Handled(st, tx, name, score, startupTime, now, marketOk, vwap);
            StateValid(r) && |r.positions| <= MaxNat(|st.positions|, MaxPositions)
  {
    var s := ScreenActivity(tx, st.seen, st.positions.Keys, startupTime, now, marketOk);
    var r := Handled(st, tx, name, score, startupTime, now, marketOk, vwap);
    var marked := st.(seen := st.seen + [tx.txId]);
    HandledEffects(st, tx, name, score, startupTime, now, marketOk, vwap);
    if s != Skip {
      assert tx.txId !in st.seen;
      assert StateValid(marked);
    }
    match s
    case Skip =>
    case Mark =>
    case Mirror(tid) =>
      SubsetCardinality(r.positions.Keys, st.positions.Keys);
    case Buy =>
      match BuyStep(tx, name, score, st.bankroll, now, vwap)
      case CopyNow(price) =>
        CopiedEffect(marked, tx, name, score, price, now);
        SubsetCardinality(r.positions.Keys, st.positions.Keys + {Tid(tx)});
      case Queue(o) =>
  }

  /** The activity loop over `acts`, each entry screened with the market filter's verdict on it. */
  function HandledAll(st: CopyState, acts: seq<Activity>, name: string, score: real, startupTime: int, now: int,
                      marketOk: Activity -> bool, vwap: (string, real) -> Option<real>): CopyState
    requires PositiveFills(vwap)
  {
    if |acts| == 0 then st
    else
      var last := acts[|acts| - 1];
      Handled(HandledAll(st, acts[..|acts| - 1], name, score, startupTime, now, marketOk, vwap),
              last, name, score, startupTime, now, marketOk(last), vwap)
  }

  /** A whole reply keeps the state valid and never takes the book past the position limit. */
  lemma {:induction false} HandledAllBounded(st: CopyState, acts: seq<Activity>, name: string, score: real,
                                             startupTime: int, now: int, marketOk: Activity -> bool,
                                             vwap: (string, real) -> Option<real>)
    requires PositiveFills(vwap) && StateValid(st)
    ensures var r := HandledAll(st, acts, name, score, startupTime, now, marketOk, vwap);
            StateValid(r) && |r.positions| <= MaxNat(|st.positions|, MaxPositions)
  {
    if |acts| > 0 {
      var last := acts[|acts| - 1];
      HandledAllBounded(st, acts[..|acts| - 1], name, score, startupTime, now, marketOk, vwap);
      HandledBounded(HandledAll(st, acts[..|acts| - 1], name, score, startupTime, now, marketOk, vwap),
                     last, name, score, startupTime, now, marketOk(last), vwap);
    }
  }

  /** `seen_txs` cut back when it outgrows its limit. */
  function Trimmed(st: CopyState): CopyState
  {
    if |st.seen| > SeenLimit then st.(seen := st.seen[SeenDrop..]) else st
  }

  /** One order of the pending pass on the state; the orders kept so far are its `pendingOrders`. */
  function AfterOrder(st: CopyState, o: PendingOrder, now: int, vwap: (string, real) -> Option<real>): CopyState
    requires PositiveFills(vwap)
  {
    if now > o.expiresAt then st
    else if Fills(o, vwap) then Copied(st, o.tx, o.whaleName, o.score, vwap(o.tx.asset, o.betSize).value, now)
    else st.(pendingOrders := st.pendingOrders + [o])
  }

  /** The pending pass over `queue`, the kept orders collected after those of `st`. */
  function Drain(st: CopyState, queue: seq<PendingOrder>, now: int, vwap: (string, real) -> Option<real>): CopyState
    requires PositiveFills(vwap)
  {
    if |queue| == 0 then st
    else AfterOrder(Drain(st, queue[..|queue| - 1], now, vwap), queue[|queue| - 1], now, vwap)
  }

  /**
   * The pending pass keeps exactly the live unfilled orders, in their order;
   * it never drops a copy, leaves the seen ids alone, keeps the state valid,
   * and opens copies and counts bets only for orders that fill.
   */
  lemma {:induction false} DrainKeeps(st: CopyState, queue: seq<PendingOrder>, now: int,
                                      vwap: (string, real) -> Option<real>)
    requires PositiveFills(vwap)
    ensures var r := Drain(st, queue, now, vwap);
            r.pendingOrders == st.pendingOrders + KeptOrders(queue, now, vwap) && r.seen == st.seen &&
            st.positions.Keys <= r.positions.Keys &&
            |r.positions| <= |st.positions| + FilledCount(queue, now, vwap) &&
            r.stats.totalBets <= st.stats.totalBets + FilledCount(queue, now, vwap) &&
            (StateValid(st) ==> StateValid(r))
  {
    if |queue| > 0 {
      var o := queue[|queue| - 1];
      var mid := Drain(st, queue[..|queue| - 1], now, vwap);
      DrainKeeps(st, queue[..|queue| - 1], now, vwap);
      if now <= o.expiresAt && Fills(o, vwap) {
        var r := AfterOrder(mid, o, now, vwap);
        CopiedEffect(mid, o.tx, o.whaleName, o.score, vwap(o.tx.asset, o.betSize).value, now);
        SubsetCardinality(r.positions.Keys, mid.positions.Keys + {Tid(o.tx)});
      }
    }
  }

  // ---------------------------------------------------------------------
  // The bot.
  // ---------------------------------------------------------------------

  class WhaleCopyBot {
    const startupTime: int
    var bankroll: real
    /** The transaction ids already handled, oldest first. */
    var seen: seq<string>
    /** The tids of `positions` in insertion order. */
    var order: seq<string>
    var positions: map<string, WhalePosition>
    var pendingOrders: seq<PendingOrder>
    var stats: Stats

    /** The bot's state as one value. */
    function Snapshot(): CopyState
      reads this
    {
      CopyState(bankroll, seen, order, positions, pendingOrders, stats)
    }

    ghost predicate Valid()
      reads this
    {
      StateValid(Snapshot())
    }

    constructor (initialBankroll: real, startupTime: int)
      ensures Valid()
      ensures this.startupTime == startupTime && bankroll == initialBankroll
      ensures seen == [] && order == [] && positions == map[] && pendingOrders == []
      ensures stats == Stats(0, 0, 0, 0.0)
    {
      this.startupTime := startupTime;
      bankroll := initialBankroll;
      seen := [];
      order := [];
      positions := map[];
      pendingOrders := [];
      stats := Stats(0, 0, 0, 0.0);
    }

    /** `_execute_copy_trade`: open a copy at `price` unless the stake is under a dollar or the tid is held. */
    method ExecuteCopyTrade(tx: Activity, name: string, score: real, price: real, now: int)
      requires Valid() && price > 0.0
      modifies this
      ensures Valid() && Snapshot() == Copied(old(Snapshot()), tx, name, score, price, now)
    {
      var bet := CopyBetSize(bankroll, score);
      if bet < MinCopyBet {
        return;
      }
      var tid := Tid(tx);
      if tid in positions {
        return;
      }
      bankroll := bankroll - bet;
      stats := stats.(totalBets := stats.totalBets + 1);
      positions := positions[tid := NewPosition(tx, name, price, bet, now)];
      order := order + [tid];
    }

    /** The mirror exit: drop the copy and sell it at its last recorded price. */
    method MirrorExit(tid: string)
      requires Valid() && tid in positions
      modifies this
      ensures Valid() && Snapshot() == Exited(old(Snapshot()), tid)
    {
      var pos := positions[tid];
      positions := positions - {tid};
      order := Remove(order, tid);
      var b := EarlyExitBook(Book(bankroll, stats), pos, pos.currentPrice);
      bankroll := b.bankroll;
      stats := b.stats;
    }

    /** One entry of the activity loop, with the fill simulated by `vwap`. */
    method HandleActivity(tx: Activity, name: string, score: real, now: int, marketOk: bool,
                          vwap: (string, real) -> Option<real>)
      requires Valid() && PositiveFills(vwap)
      modifies this
      ensures Valid() && Snapshot() == Handled(old(Snapshot()), tx, name, score, startupTime, now, marketOk, vwap)
    {
      if tx.txId == "" || tx.txId in seen {
        return;
      }
      seen := Insert(seen, tx.txId);
      if tx.kind == "TRADE" && tx.side == "SELL" {
        var tid := Tid(tx);
        if tid in positions {
          MirrorExit(tid);
        }
        return;
      }
      if tx.kind != "TRADE" || tx.side != "BUY" {
        return;
      }
      if tx.timestamp.None? || tx.timestamp.value < startupTime || now - tx.timestamp.value > MaxTradeAge {
        return;
      }
      if tx.price >= NearSettledPrice || |positions| >= MaxPositions || !marketOk {
        return;
      }
      var outcome := BuyStep(tx, name, score, bankroll, now, vwap);
      match outcome
      case CopyNow(price) =>
        ExecuteCopyTrade(tx, name, score, price, now);
      case Queue(o) =>
        pendingOrders := pendingOrders + [o];
    }

    /** `seen_txs` is cut back when it outgrows its limit. */
    method TrimSeen()
      requires Valid()
      modifies this
      ensures Valid()
      ensures |old(seen)| > SeenLimit ==> seen == old(seen)[SeenDrop..]
      ensures |old(seen)| <= SeenLimit ==> seen == old(seen)
      ensures Snapshot() == Trimmed(old(Snapshot()))
    {
      if |seen| > SeenLimit {
        seen := seen[SeenDrop..];
      }
    }

    /**
     * `_check_whale_activity` with the fill simulation the copy path needs.
     * `reply` is None when the request does not answer 200; `marketOk` is the
     * market-page filter.
     */
    method CheckWhaleActivity(reply: Option<seq<Activity>>, name: string, score: real, now: int,
                              marketOk: Activity -> bool, vwap: (string, real) -> Option<real>)
      requires Valid() && PositiveFills(vwap)
      modifies this
      ensures Valid()
      ensures |positions| <= MaxNat(|old(positions)|, MaxPositions)
      ensures reply.None? ==> Snapshot() == old(Snapshot())
      ensures reply.Some? ==>
                Snapshot() == HandledAll(Trimmed(old(Snapshot())), reply.value, name, score, startupTime, now,
                                         marketOk, vwap)
    {
      if reply.None? {
        return;
      }
      TrimSeen();
      ghost var trimmed := Snapshot();
      var activities := reply.value;
      var i := 0;
      while i < |activities|
        invariant 0 <= i <= |activities| && Valid()
        invariant Snapshot() == HandledAll(trimmed, activities[..i], name, score, startupTime, now, marketOk, vwap)
      {
        var tx := activities[i];
        HandleActivity(tx, name, score, now, marketOk(tx), vwap);
        assert activities[..i + 1][..i] == activities[..i];
        i := i + 1;
      }
      assert activities[..i] == activities;
      HandledAllBounded(trimmed, activities, name, score, startupTime, now, marketOk, vwap);
    }

    /**
     * `_check_whale_activity` as it runs against the client it is given: the
     * client has no fill simulation, so the first BUY that passes the
     * filters raises, and the handler around the loop abandons the rest of
     * the reply. Its id is recorded first, so the trade is never retried.
     */
    method CheckWhaleActivityAsWritten(reply: Option<seq<Activity>>, now: int, marketOk: Activity -> bool)
      requires Valid()
      modifies this
      ensures Valid()
      ensures stats.totalBets == old(stats.totalBets) && pendingOrders == old(pendingOrders)
      ensures positions.Keys <= old(positions).Keys
    {
      if reply.None? {
        return;
      }
      TrimSeen();
      var activities := reply.value;
      var i := 0;
      while i < |activities|
        invariant 0 <= i <= |activities| && Valid()
        invariant stats.totalBets == old(stats.totalBets) && pendingOrders == old(pendingOrders)
        invariant positions.Keys <= old(positions).Keys
      {
        var tx := activities[i];
        var s := ScreenActivity(tx, seen, positions.Keys, startupTime, now, marketOk(tx));
        if s == Buy {
          seen := Insert(seen, tx.txId);
          return;
        }
        HandleActivity(tx, "", 0.0, now, marketOk(tx), (token: string, notional: real) => None);
        i := i + 1;
      }
    }

    /** `_process_pending_orders`: fill what the book now allows, drop what expired, keep the rest. */
    method ProcessPendingOrders(now: int, vwap: (string, real) -> Option<real>)
      requires Valid() && PositiveFills(vwap)
      modifies this
      ensures Valid()
      ensures Snapshot() == Drain(old(Snapshot()).(pendingOrders := []), old(pendingOrders), now, vwap)
      ensures pendingOrders == KeptOrders(old(pendingOrders), now, vwap)
      ensures old(positions).Keys <= positions.Keys
      ensures |positions| <= |old(positions)| + FilledCount(old(pendingOrders), now, vwap)
      ensures stats.totalBets <= old(stats.totalBets) + FilledCount(old(pendingOrders), now, vwap)
    {
      ghost var start := Snapshot().(pendingOrders := []);
      var queue := pendingOrders;
      var active: seq<PendingOrder> := [];
      var i := 0;
      while i < |queue|
        invariant 0 <= i <= |queue| && Valid() && pendingOrders == queue
        invariant Snapshot().(pendingOrders := active) == Drain(start, queue[..i], now, vwap)
      {
        active := HandleOrder(queue[i], now, vwap, active);
        assert queue[..i + 1][..i] == queue[..i];
        i := i + 1;
      }
      assert queue[..i] == queue;
      pendingOrders := active;
      DrainKeeps(start, queue, now, vwap);
    }

    /** One order of `_process_pending_orders`: skipped when expired, filled when the book allows, else kept. */
    method HandleOrder(o: PendingOrder, now: int, vwap: (string, real) -> Option<real>, active: seq<PendingOrder>)
      returns (active': seq<PendingOrder>)
      requires Valid() && PositiveFills(vwap)
      modifies this
      ensures Valid() && pendingOrders == old(pendingOrders)
      ensures Snapshot().(pendingOrders := active') == AfterOrder(old(Snapshot()).(pendingOrders := active), o, now, vwap)
    {
      active' := active;
      if now > o.expiresAt {
        return;
      }
      var v := vwap(o.tx.asset, o.betSize);
      if v.Some? && v.value <= o.targetPrice {
        ExecuteCopyTrade(o.tx, o.whaleName, o.score, v.value, now);
      } else {
        active' := active + [o];
      }
    }

    /** The review loop of `_settle_positions`; the removals follow in `RemoveSettled`. */
    method ReviewPositions(now: int, lookup: WhalePosition -> Option<MarketView>) returns (toRemove: seq<string>)
      requires Valid()
      modifies this
      ensures Valid() && order == old(order) && seen == old(seen) && pendingOrders == old(pendingOrders)
      ensures Pass(positions, Book(bankroll, stats), toRemove) ==
                ReviewFrom(old(order), Pass(old(positions), old(Book(bankroll, stats)), []), now, lookup, 0)
    {
      ghost var pass := Pass(positions, Book(bankroll, stats), []);
      ghost var goal := ReviewFrom(order, pass, now, lookup, 0);
      toRemove := [];
      var i := 0;
      while i < |order|
        invariant 0 <= i <= |order| && order == old(order) && Valid()
        invariant seen == old(seen) && pendingOrders == old(pendingOrders)
        invariant pass == Pass(positions, Book(bankroll, stats), toRemove)
        invariant goal == ReviewFrom(order, pass, now, lookup, i)
      {
        ReviewFromStep(order, pass, now, lookup, i);
        pass := ReviewOne(pass, now, lookup, order[i]);
        toRemove := ReviewStep(order[i], now, lookup, toRemove);
        i := i + 1;
      }
    }

    /** One copy of the review loop. */
    method ReviewStep(tid: string, now: int, lookup: WhalePosition -> Option<MarketView>, removed: seq<string>)
      returns (toRemove: seq<string>)
      requires Valid() && tid in positions
      modifies this
      ensures Valid() && order == old(order) && seen == old(seen) && pendingOrders == old(pendingOrders)
      ensures Pass(positions, Book(bankroll, stats), toRemove) ==
                ReviewOne(Pass(old(positions), old(Book(bankroll, stats)), removed), now, lookup, tid)
    {
      toRemove := removed;
      var pos := positions[tid];
      var view := lookup(pos);
      if view.Some? {
        var reviewed := Review(pos, view.value, now);
        var marked := reviewed.1;
        positions := positions[tid := marked];
        match reviewed.0
        case Hold =>
        case Resolved(won) =>
          var b := if won then WinBook(Book(bankroll, stats), pos) else LossBook(Book(bankroll, stats), pos);
          bankroll := b.bankroll;
          stats := b.stats;
          toRemove := toRemove + [tid];
        case EarlyExit(_) =>
          var b := EarlyExitBook(Book(bankroll, stats), marked, marked.currentPrice);
          bankroll := b.bankroll;
          stats := b.stats;
          toRemove := toRemove + [tid];
      }
    }

    /** `for tid in to_remove: self.positions.pop(tid, None)`. */
    method RemoveSettled(toRemove: seq<string>)
      requires Valid()
      modifies this
      ensures Valid()
      ensures positions == Without(old(positions), toRemove) && order == RemoveAll(old(order), toRemove)
      ensures bankroll == old(bankroll) && stats == old(stats) && seen == old(seen) &&
              pendingOrders == old(pendingOrders)
    {
      var k := 0;
      while k < |toRemove|
        invariant 0 <= k <= |toRemove| && Valid()
        invariant bankroll == old(bankroll) && stats == old(stats) && seen == old(seen) &&
                  pendingOrders == old(pendingOrders)
        invariant positions == Without(old(positions), toRemove[..k])
        invariant RemoveAll(old(order), toRemove) == RemoveAll(order, toRemove[k..])
      {
        assert toRemove[k..][1..] == toRemove[k + 1..];
        assert toRemove[..k + 1] == toRemove[..k] + [toRemove[k]];
        WithoutStep(old(positions), toRemove[..k], toRemove[k]);
        positions := positions - {toRemove[k]};
        order := Remove(order, toRemove[k]);
        k := k + 1;
      }
      assert toRemove[..|toRemove|] == toRemove;
    }

    /** `_settle_positions`: review every copy, then drop the settled and exited ones. */
    method SettlePositions(now: int, lookup: WhalePosition -> Option<MarketView>)
      requires Valid()
      modifies this
      ensures Valid() && seen == old(seen) && pendingOrders == old(pendingOrders)
      ensures var r := ReviewFrom(old(order), Pass(old(positions), old(Book(bankroll, stats)), []), now, lookup, 0);
              Book(bankroll, stats) == r.book &&
              positions == Without(r.positions, r.removed) && order == RemoveAll(old(order), r.removed)
    {
      var toRemove := ReviewPositions(now, lookup);
      RemoveSettled(toRemove);
    }
  }
}
