// The deep backtester: gathers the BUYs of every active whale, replays them
// in time order against a compounding capital of $1000, and settles each at
// the market's current or final price, looked up once per outcome.
module DeepBacktester {
  import opened Numerics
  import opened Wrappers
  import opened WhaleDb
  import opened Collections
  import ClientWrapper
  import WhaleManager

  const InitialCapital: real := 1000.0
  const BetFraction: real := 0.05
  const MaxBet: real := 100.0
  const MinBet: real := 1.0
  /** The score of a whale whose record has none. */
  const DefaultScore: real := 50.0
  const WinPrice: real := 0.99
  const LossPrice: real := 0.01

  /** One activity of a whale as the data feed reports it; `timestamp` is None when it cannot be read. */
  datatype RawActivity = RawActivity(kind: string, side: string, action: string, timestamp: Option<int>,
                                     price: real, slug: string, conditionId: string, outcomeIndex: nat,
                                     title: string)

  /** `fetch_all_trades` keeps the BUYs, in either of the feed's two shapes. */
  predicate IsBuy(a: RawActivity)
  {
    (a.kind == "TRADE" && a.side == "BUY") || a.action == "Buy"
  }

  function BuysOf(acts: seq<RawActivity>): (r: seq<RawActivity>)
    ensures forall a :: a in r <==> a in acts && IsBuy(a)
  {
    if |acts| == 0 then []
    else BuysOf(acts[..|acts| - 1]) + (if IsBuy(acts[|acts| - 1]) then [acts[|acts| - 1]] else [])
  }

  /** A BUY with its time read and its whale's name and score attached. */
  datatype BacktestTrade = BacktestTrade(parsedTime: int, whaleName: string, whaleScore: real, price: real,
                                         slug: string, conditionId: string, outcomeIndex: nat, title: string)

  /** The trades of one whale: BUYs whose time cannot be read are dropped. */
  function Tagged(buys: seq<RawActivity>, info: WhaleRecord): (r: seq<BacktestTrade>)
    ensures |r| <= |buys|
    ensures forall t :: t in r ==> t.whaleName == info.name && t.whaleScore == info.score.GetOr(DefaultScore)
  {
    if |buys| == 0 then []
    else
      var a := buys[|buys| - 1];
      Tagged(buys[..|buys| - 1], info) +
      (if a.timestamp.Some? then
         [BacktestTrade(a.timestamp.value, info.name, info.score.GetOr(DefaultScore), a.price, a.slug,
                        a.conditionId, a.outcomeIndex, a.title)]
       else [])
  }

  /** `activity(address)`: the wallet's recent activities, empty when the request fails. */
  type ActivityFeed = string -> seq<RawActivity>

  /** The trades of the active whales among `keys`, whale by whale. */
  function Gathered(db: map<string, WhaleRecord>, keys: seq<string>, activity: ActivityFeed): (r: seq<BacktestTrade>)
    requires forall k :: k in keys ==> k in db
  {
    if |keys| == 0 then []
    else
      var k := keys[|keys| - 1];
      Gathered(db, keys[..|keys| - 1], activity) +
      (if IsActive(db[k]) then Tagged(BuysOf(activity(k)), db[k]) else [])
  }

  /** Every gathered trade carries the name and score of an active whale. */
  lemma {:induction false} GatheredFromActive(db: map<string, WhaleRecord>, keys: seq<string>, activity: ActivityFeed,
                                             t: BacktestTrade)
    requires forall k :: k in keys ==> k in db
    requires t in Gathered(db, keys, activity)
    ensures exists k :: k in keys && IsActive(db[k]) && t.whaleName == db[k].name &&
                        t.whaleScore == db[k].score.GetOr(DefaultScore)
  {
    var k := keys[|keys| - 1];
    if t in Gathered(db, keys[..|keys| - 1], activity) {
      GatheredFromActive(db, keys[..|keys| - 1], activity, t);
      var j :| j in keys[..|keys| - 1] && IsActive(db[j]) && t.whaleName == db[j].name &&
               t.whaleScore == db[j].score.GetOr(DefaultScore);
      assert j in keys;
    } else {
      assert k in keys;
    }
  }

  /** The first loop of `simulate`: the trades of every active whale. */
  method CollectTrades(db: map<string, WhaleRecord>, keys: seq<string>, activity: ActivityFeed)
    returns (all: seq<BacktestTrade>)
    requires forall k :: k in keys ==> k in db
    ensures all == Gathered(db, keys, activity)
  {
    all := [];
    var i := 0;
    while i < |keys|
      invariant 0 <= i <= |keys|
      invariant all == Gathered(db, keys[..i], activity)
    {
      var addr := keys[i];
      assert keys[..i + 1][..i] == keys[..i];
      var info := db[addr];
      if IsActive(info) {
        var trades := BuysOf(activity(addr));
        ghost var before := all;
        var j := 0;
        while j < |trades|
          invariant 0 <= j <= |trades|
          invariant all == before + Tagged(trades[..j], info)
        {
          var t := trades[j];
          assert trades[..j + 1][..j] == trades[..j];
          if t.timestamp.Some? {
            all := all + [BacktestTrade(t.timestamp.value, info.name, info.score.GetOr(DefaultScore), t.price,
                                        t.slug, t.conditionId, t.outcomeIndex, t.title)];
          }
          j := j + 1;
        }
        assert trades[..|trades|] == trades;
      }
      i := i + 1;
    }
    assert keys[..|keys|] == keys;
  }

  /** The sort key of the timeline: the parsed time. */
  function TimeKey(t: BacktestTrade): real
  {
    t.parsedTime as real
  }

  /** A market of an event as the events API reports it; `outcomePrices` is None when it cannot be decoded. */
  datatype GammaMarket = GammaMarket(conditionId: string, outcomePrices: Option<seq<real>>)

  /** `events(slug)`: the events of a slug, each as its list of markets; None when the request fails. */
  type EventsFeed = string -> Option<seq<seq<GammaMarket>>>

  predicate Priced(m: GammaMarket, conditionId: string, outcomeIndex: nat)
  {
    m.conditionId == conditionId && m.outcomePrices.Some? && outcomeIndex < |m.outcomePrices.value|
  }

  /** The outcome's price in the first market of `markets` that has the condition and enough prices. */
  function PriceIn(markets: seq<GammaMarket>, conditionId: string, outcomeIndex: nat): (r: Option<real>)
    ensures r.None? <==> forall m :: m in markets ==> !Priced(m, conditionId, outcomeIndex)
    ensures r.Some? ==> exists m :: m in markets && Priced(m, conditionId, outcomeIndex) &&
                                    r.value == m.outcomePrices.value[outcomeIndex]
  {
    if |markets| == 0 then None
    else if Priced(markets[0], conditionId, outcomeIndex) then
      assert markets[0] in markets;
      Some(markets[0].outcomePrices.value[outcomeIndex])
    else
      var r := PriceIn(markets[1..], conditionId, outcomeIndex);
      assert forall m :: m in markets <==> m == markets[0] || m in markets[1..];
      r
  }

  /** What a lookup finds: the price in the first event of the reply, None without one. */
  function Resolution(reply: Option<seq<seq<GammaMarket>>>, conditionId: string, outcomeIndex: nat): Option<real>
  {
    if reply.None? || |reply.value| == 0 then None else PriceIn(reply.value[0], conditionId, outcomeIndex)
  }

  function CacheKey(conditionId: string, outcomeIndex: nat): string
  {
    conditionId + "_" + ClientWrapper.NatToString(outcomeIndex)
  }

  /**
   * A cached lookup: a cached key answers without a request; otherwise the
   * request's answer is returned and, only when it is a price, cached.
   */
  function Lookup(cache: map<string, real>, slug: string, conditionId: string, outcomeIndex: nat,
                  events: EventsFeed): (r: (Option<real>, map<string, real>))
    ensures var key := CacheKey(conditionId, outcomeIndex);
            r.1.Keys == cache.Keys + (if r.0.Some? then {key} else {}) &&
            (forall k :: k in cache ==> r.1[k] == cache[k]) &&
            (key in cache ==> r.0 == Some(cache[key])) &&
            (key !in cache ==> r.0 == Resolution(events(slug), conditionId, outcomeIndex)) &&
            (r.0.Some? ==> key in r.1 && r.1[key] == r.0.value)
  {
    var key := CacheKey(conditionId, outcomeIndex);
    if key in cache then (Some(cache[key]), cache)
    else
      var price := Resolution(events(slug), conditionId, outcomeIndex);
      if price.Some? then (price, cache[key := price.value]) else (price, cache)
  }

  /** Asking twice for the same outcome gives the same answer, and the second time nothing new is cached. */
  lemma LookupIdempotent(cache: map<string, real>, slug: string, slug': string, conditionId: string,
                         outcomeIndex: nat, events: EventsFeed)
    requires Lookup(cache, slug, conditionId, outcomeIndex, events).0.Some?
    ensures var (price, next) := Lookup(cache, slug, conditionId, outcomeIndex, events);
            Lookup(next, slug', conditionId, outcomeIndex, events) == (price, next)
  {
  }

  /** `base_bet * weight`: 5% of capital, at most $100, scaled by the whale's score clipped to [0, 100]. */
  function BetSize(capital: real, score: real): (bet: real)
    ensures capital >= 0.0 ==> 0.0 <= bet <= capital * BetFraction && bet <= MaxBet
    ensures score >= 100.0 ==> bet == Min(capital * BetFraction, MaxBet)
    ensures score <= 0.0 ==> bet == 0.0
  {
    var base := Min(capital * BetFraction, MaxBet);
    var weight := Max(0.0, Min(score / 100.0, 1.0));
    assert 0.0 <= weight <= 1.0 && (score >= 100.0 ==> weight == 1.0) && (score <= 0.0 ==> weight == 0.0);
    if capital >= 0.0 then
      Weighted(base, weight);
      base * weight
    else base * weight
  }

  /** One line of the backtest's timeline; money is rounded to cents. */
  datatype TimelineEntry = TimelineEntry(time: int, whale: string, market: string, betSize: real, profit: real,
                                         capital: real)

  datatype SimState = SimState(capital: real, wins: nat, losses: nat, openPositions: nat,
                               timeline: seq<TimelineEntry>, cache: map<string, real>)

  /** The profit of `bet` dollars of shares bought at `ourPrice`, each paying `res`. */
  function TradeProfit(bet: real, ourPrice: real, res: real): (p: real)
    requires ourPrice > 0.0
    ensures bet >= 0.0 && res >= 0.0 ==> p >= -bet
    ensures bet > 0.0 ==> (p > 0.0 <==> res > ourPrice)
  {
    var shares := bet / ourPrice;
    var payout := shares * res;
    ProfitSign(bet, ourPrice, res);
    payout - bet
  }

  lemma ProfitSign(bet: real, ourPrice: real, res: real)
    requires ourPrice > 0.0
    ensures bet / ourPrice * res - bet == bet / ourPrice * (res - ourPrice)
    ensures bet >= 0.0 && res >= 0.0 ==> bet / ourPrice * res - bet >= -bet
    ensures bet > 0.0 ==> (bet / ourPrice * res - bet > 0.0 <==> res > ourPrice)
  {
    var shares := bet / ourPrice;
    assert shares * ourPrice == bet;
    if bet >= 0.0 && res >= 0.0 {
      MulNonNegative(shares, res);
    }
    if bet > 0.0 {
      if res > ourPrice {
        MulPositive(shares, res - ourPrice);
      } else {
        MulNonNegative(shares, ourPrice - res);
      }
    }
  }

  /**
   * Settling a bought trade at `res`: the shares bought with `bet` at the
   * slipped price pay `res` each, the profit moves the capital, one line is
   * logged and the trade counts once as a win, a loss or still open.
   */
  function Settle(s: SimState, t: BacktestTrade, bet: real, res: real, cache: map<string, real>): (r: SimState)
    requires t.price > 0.0
    ensures r.capital == s.capital + TradeProfit(bet, WhaleManager.EntryCost(t.price), res)
    ensures r.timeline == s.timeline + [TimelineEntry(t.parsedTime, t.whaleName, t.title, Round2(bet),
                                                       Round2(TradeProfit(bet, WhaleManager.EntryCost(t.price), res)),
                                                       Round2(r.capital))]
    ensures r.wins == s.wins + (if res >= WinPrice then 1 else 0)
    ensures r.losses == s.losses + (if res < WinPrice && res <= LossPrice then 1 else 0)
    ensures r.wins + r.losses + r.openPositions == s.wins + s.losses + s.openPositions + 1
    ensures r.cache == cache
  {
    var profit := TradeProfit(bet, WhaleManager.EntryCost(t.price), res);
    var capital := s.capital + profit;
    SimState(capital,
             if res >= WinPrice then s.wins + 1 else s.wins,
             if res < WinPrice && res <= LossPrice then s.losses + 1 else s.losses,
             if res < WinPrice && res > LossPrice then s.openPositions + 1 else s.openPositions,
             s.timeline + [TimelineEntry(t.parsedTime, t.whaleName, t.title, Round2(bet), Round2(profit),
                                         Round2(capital))],
             cache)
  }

  /** Whether a trade is bought: a positive price, a bet of $1 or more, and capital to cover it. */
  predicate Affordable(capital: real, t: BacktestTrade)
  {
    t.price > 0.0 && MinBet <= BetSize(capital, t.whaleScore) <= capital
  }

  /**
   * One trade of the compounding loop. It is skipped at a non-positive
   * price, a bet under $1, a capital under the bet, or no price to settle
   * at; otherwise it is bought at the slipped price and settled at once.
   */
  function SimStep(s: SimState, t: BacktestTrade, events: EventsFeed): (r: SimState)
    ensures !Affordable(s.capital, t) ==> r == s
    ensures Affordable(s.capital, t) ==>
              var look := Lookup(s.cache, t.slug, t.conditionId, t.outcomeIndex, events);
              r == if look.0.None? then s.(cache := look.1)
                   else Settle(s, t, BetSize(s.capital, t.whaleScore), look.0.value, look.1)
  {
    if t.price <= 0.0 then s
    else
      var bet := BetSize(s.capital, t.whaleScore);
      if bet < MinBet || s.capital < bet then s
      else
        var look := Lookup(s.cache, t.slug, t.conditionId, t.outcomeIndex, events);
        if look.0.None? then s.(cache := look.1) else Settle(s, t, bet, look.0.value, look.1)
  }

  /** The compounding loop over `trades` in order. */
  function Run(s: SimState, trades: seq<BacktestTrade>, events: EventsFeed): SimState
  {
    if |trades| == 0 then s else SimStep(Run(s, trades[..|trades| - 1], events), trades[|trades| - 1], events)
  }

  /** Every settled trade adds exactly one timeline line and counts once as a win, a loss or open. */
  lemma {:induction false} RunCounts(s: SimState, trades: seq<BacktestTrade>, events: EventsFeed)
    ensures var r := Run(s, trades, events);
            |r.timeline| - |s.timeline| == (r.wins + r.losses + r.openPositions) - (s.wins + s.losses + s.openPositions)
    ensures |Run(s, trades, events).timeline| <= |s.timeline| + |trades|
  {
    if |trades| > 0 {
      RunCounts(s, trades[..|trades| - 1], events);
    }
  }

  predicate NonNegativePrices(markets: seq<GammaMarket>)
  {
    forall m :: m in markets && m.outcomePrices.Some? ==> forall p :: p in m.outcomePrices.value ==> p >= 0.0
  }

  /** Every price the events API can report is non-negative. */
  ghost predicate FeedNonNegative(events: EventsFeed)
  {
    forall slug :: events(slug).Some? ==> forall e :: e in events(slug).value ==> NonNegativePrices(e)
  }

  predicate CacheNonNegative(cache: map<string, real>)
  {
    forall k :: k in cache ==> cache[k] >= 0.0
  }

  /** Under a non-negative feed a lookup finds only non-negative prices and caches only those. */
  lemma LookupNonNegative(cache: map<string, real>, slug: string, conditionId: string, outcomeIndex: nat,
                          events: EventsFeed)
    requires CacheNonNegative(cache) && FeedNonNegative(events)
    ensures var look := Lookup(cache, slug, conditionId, outcomeIndex, events);
            (look.0.Some? ==> look.0.value >= 0.0) && CacheNonNegative(look.1)
  {
    var look := Lookup(cache, slug, conditionId, outcomeIndex, events);
    if look.0.Some? && CacheKey(conditionId, outcomeIndex) !in cache {
      var reply := events(slug);
      assert reply.value[0] in reply.value;
      var m :| m in reply.value[0] && Priced(m, conditionId, outcomeIndex) &&
               look.0.value == m.outcomePrices.value[outcomeIndex];
      assert m.outcomePrices.value[outcomeIndex] in m.outcomePrices.value;
    }
  }

  /**
   * With non-negative settlement prices a trade keeps at least 95% of the
   * capital: the bet is at most 5% of it and the payout is never negative.
   */
  lemma {:induction false} StepKeepsCapital(s: SimState, t: BacktestTrade, events: EventsFeed)
    requires s.capital >= 0.0 && CacheNonNegative(s.cache) && FeedNonNegative(events)
    ensures var r := SimStep(s, t, events); r.capital >= 0.95 * s.capital && CacheNonNegative(r.cache)
  {
    if Affordable(s.capital, t) {
      LookupNonNegative(s.cache, t.slug, t.conditionId, t.outcomeIndex, events);
      var look := Lookup(s.cache, t.slug, t.conditionId, t.outcomeIndex, events);
      if look.0.Some? {
        var bet := BetSize(s.capital, t.whaleScore);
        var r := Settle(s, t, bet, look.0.value, look.1);
        assert SimStep(s, t, events) == r;
        assert r.capital == s.capital + TradeProfit(bet, WhaleManager.EntryCost(t.price), look.0.value);
      }
    }
  }

  /** The capital of a backtest never goes negative while settlement prices are non-negative. */
  lemma {:induction false} RunKeepsCapital(s: SimState, trades: seq<BacktestTrade>, events: EventsFeed)
    requires s.capital >= 0.0 && CacheNonNegative(s.cache) && FeedNonNegative(events)
    ensures Run(s, trades, events).capital >= 0.0 && CacheNonNegative(Run(s, trades, events).cache)
  {
    if |trades| > 0 {
      RunKeepsCapital(s, trades[..|trades| - 1], events);
      StepKeepsCapital(Run(s, trades[..|trades| - 1], events), trades[|trades| - 1], events);
    }
  }

  /** The result that `simulate` reports and writes out. */
  datatype Report = Report(capital: real, wins: nat, losses: nat, openPositions: nat, timeline: seq<TimelineEntry>)

  class DeepBacktester {
    /** Resolution prices by `conditionId_outcomeIndex`. */
    var marketCache: map<string, real>

    constructor ()
      ensures marketCache == map[]
    {
      marketCache := map[];
    }

    /** `get_market_resolution_price`. */
    method GetMarketResolutionPrice(slug: string, conditionId: string, outcomeIndex: nat, events: EventsFeed)
      returns (price: Option<real>)
      modifies this
      ensures (price, marketCache) == Lookup(old(marketCache), slug, conditionId, outcomeIndex, events)
    {
      var key := CacheKey(conditionId, outcomeIndex);
      if key in marketCache {
        return Some(marketCache[key]);
      }
      price := Resolution(events(slug), conditionId, outcomeIndex);
      if price.Some? {
        marketCache := marketCache[key := price.value];
      }
    }

    /** The body of the compounding loop for one trade. */
    method SimulateTrade(t: BacktestTrade, capital: real, wins: nat, losses: nat, openPositions: nat,
                         timeline: seq<TimelineEntry>, events: EventsFeed)
      returns (capital': real, wins': nat, losses': nat, openPositions': nat, timeline': seq<TimelineEntry>)
      modifies this
      ensures SimState(capital', wins', losses', openPositions', timeline', marketCache) ==
              SimStep(SimState(capital, wins, losses, openPositions, timeline, old(marketCache)), t, events)
    {
      capital', wins', losses', openPositions', timeline' := capital, wins, losses, openPositions, timeline;
      var whalePrice := t.price;
      if whalePrice <= 0.0 {
        return;
      }
      var ourPrice := WhaleManager.EntryCost(whalePrice);
      var betSize := BetSize(capital, t.whaleScore);
      if betSize < MinBet || capital < betSize {
        return;
      }
      var res := GetMarketResolutionPrice(t.slug, t.conditionId, t.outcomeIndex, events);
      if res.None? {
        return;
      }
      var profit := TradeProfit(betSize, ourPrice, res.value);
      capital' := capital + profit;
      if res.value >= WinPrice {
        wins' := wins + 1;
      } else if res.value <= LossPrice {
        losses' := losses + 1;
      } else {
        openPositions' := openPositions + 1;
      }
      timeline' := timeline + [TimelineEntry(t.parsedTime, t.whaleName, t.title, Round2(betSize), Round2(profit),
                                             Round2(capital'))];
      ghost var r := Settle(SimState(capital, wins, losses, openPositions, timeline, old(marketCache)), t, betSize,
                            res.value, marketCache);
      assert r.capital == capital';
      assert r.wins == wins';
      assert r.losses == losses';
      assert r.openPositions == openPositions';
      assert r.timeline == timeline';
    }

    /** The compounding loop from $1000 over trades already in time order. */
    method Replay(trades: seq<BacktestTrade>, events: EventsFeed)
      returns (capital: real, wins: nat, losses: nat, openPositions: nat, timeline: seq<TimelineEntry>)
      modifies this
      ensures SimState(capital, wins, losses, openPositions, timeline, marketCache)
              == Run(SimState(InitialCapital, 0, 0, 0, [], old(marketCache)), trades, events)
    {
      capital, wins, losses, openPositions, timeline := InitialCapital, 0, 0, 0, [];
      ghost var start := SimState(InitialCapital, 0, 0, 0, [], marketCache);
      var i := 0;
      while i < |trades|
        invariant 0 <= i <= |trades|
        invariant SimState(capital, wins, losses, openPositions, timeline, marketCache) == Run(start, trades[..i], events)
      {
        ghost var before := SimState(capital, wins, losses, openPositions, timeline, marketCache);
        assert trades[..i + 1][..i] == trades[..i];
        assert Run(start, trades[..i + 1], events) == SimStep(before, trades[i], events);
        capital, wins, losses, openPositions, timeline :=
          SimulateTrade(trades[i], capital, wins, losses, openPositions, timeline, events);
        i := i + 1;
      }
      assert trades[..|trades|] == trades;
    }

    /**
     * `simulate`: gather the active whales' BUYs, sort them by time and run
     * the compounding loop from $1000; with no trade to replay there is no
     * report.
     */
    method Simulate(db: map<string, WhaleRecord>, keys: seq<string>, activity: ActivityFeed, events: EventsFeed)
      returns (report: Option<Report>)
      requires forall k :: k in keys ==> k in db
      modifies this
      ensures |Gathered(db, keys, activity)| == 0 ==> report.None? && marketCache == old(marketCache)
      ensures |Gathered(db, keys, activity)| > 0 ==>
                var r := Run(SimState(InitialCapital, 0, 0, 0, [], old(marketCache)),
                             SortBy(Gathered(db, keys, activity), TimeKey), events);
                report == Some(Report(r.capital, r.wins, r.losses, r.openPositions, r.timeline)) &&
                marketCache == r.cache
    {
      var all := CollectTrades(db, keys, activity);
      if |all| == 0 {
        return None;
      }
      var trades := SortBy(all, TimeKey);
      var capital, wins, losses, openPositions, timeline := Replay(trades, events);
      report := Some(Report(capital, wins, losses, openPositions, timeline));
    }
  }
}
