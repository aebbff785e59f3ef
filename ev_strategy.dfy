// The +EV short-expiry strategy: market parsing, order-book reading, the
// per-coin pick and its stake, and the ledger of open positions with its
// entry, oracle-gated settlement and drawdown halt.  Clock readings, oracle
// answers, venue calls and the market analysis are parameters.
module EvStrategy {
  import opened Numerics
  import opened Wrappers
  import opened Text
  import opened Collections
  import ClientWrapper
  import KellySizing
  import ProbabilityEngine
  import BinanceFeed

  /** The venue fee on winnings. */
  const FeeRate: real := 0.02
  /** Fraction of the peak equity whose loss halts the bot. */
  const DrawdownHaltPct: real := 0.50
  /** Extra cost charged on a paper entry. */
  const PaperSlippage: real := 0.005
  /** Seconds between two oracle checks of the same expired position. */
  const ResolutionInterval: real := 10.0
  /** Defaults of `kelly_bet_size` that the strategy does not override. */
  const KellyMaxBetFraction: real := 0.10
  const KellyMinBet: real := 1.0

  /** The settings read from the environment. */
  datatype Settings = Settings(paperTrading: bool, kellyFraction: real, maxBetFraction: real,
                               maxBetAmount: real, minBetUsdc: real, maxConcurrentBets: nat,
                               strategyName: string)

  // ---------------------------------------------------------------------
  // Market parsing.

  /** `extract_coin`: the coin a question is about, "" when none is named. */
  function ExtractCoin(question: string): (coin: string)
    ensures coin == "BTC" || coin == "ETH" || coin == "SOL" || coin == "XRP" || coin == ""
  {
    var q := Upper(question);
    if Contains(q, "BTC") || Contains(q, "BITCOIN") then "BTC"
    else if Contains(q, "ETH") || Contains(q, "ETHEREUM") then "ETH"
    else if Contains(q, "SOL") || Contains(q, "SOLANA") then "SOL"
    else if Contains(q, "XRP") || Contains(q, "RIPPLE") then "XRP"
    else ""
  }

  /** `is_above_market`: a question is about a rise unless it says "below". */
  function IsAboveMarket(question: string): bool
  {
    !Contains(Lower(question), "below")
  }

  /** Both parsers ignore letter case. */
  lemma {:induction false} ParsingIgnoresCase(question: string)
    ensures ExtractCoin(Lower(question)) == ExtractCoin(question)
    ensures ExtractCoin(Upper(question)) == ExtractCoin(question)
    ensures IsAboveMarket(Upper(question)) == IsAboveMarket(question)
  {
    UpperOfLower(question);
    UpperIdempotent(question);
    LowerOfUpper(question);
  }

  // ---------------------------------------------------------------------
  // Order books.

  /** One order-book level; a price that is missing or does not parse is None. */
  datatype Level = Level(price: Option<real>, size: Option<real>)

  datatype OrderBook = OrderBook(asks: seq<Level>, bids: seq<Level>)

  predicate Malformed(levels: seq<Level>)
  {
    exists i :: 0 <= i < |levels| && levels[i].price.None?
  }

  predicate PositivePriceAt(levels: seq<Level>, i: int)
    requires 0 <= i < |levels|
  {
    levels[i].price.Some? && levels[i].price.value > 0.0
  }

  /** The least positive price of the levels, None when there is none. */
  function MinPositive(levels: seq<Level>): (r: Option<real>)
    ensures r.Some? ==> r.value > 0.0 && exists i :: 0 <= i < |levels| && levels[i].price == Some(r.value)
    ensures r.Some? ==> forall i :: 0 <= i < |levels| && PositivePriceAt(levels, i) ==> r.value <= levels[i].price.value
    ensures r.None? <==> forall i :: 0 <= i < |levels| ==> !PositivePriceAt(levels, i)
  {
    if |levels| == 0 then None
    else
      var rest := MinPositive(levels[1..]);
      assert forall i :: 1 <= i < |levels| ==> levels[i] == levels[1..][i - 1] &&
                                                 PositivePriceAt(levels, i) == PositivePriceAt(levels[1..], i - 1);
      if !PositivePriceAt(levels, 0) then rest
      else if rest.None? || levels[0].price.value <= rest.value then levels[0].price
      else rest
  }

  /** The greatest positive price of the levels, None when there is none. */
  function MaxPositive(levels: seq<Level>): (r: Option<real>)
    ensures r.Some? ==> r.value > 0.0 && exists i :: 0 <= i < |levels| && levels[i].price == Some(r.value)
    ensures r.Some? ==> forall i :: 0 <= i < |levels| && PositivePriceAt(levels, i) ==> levels[i].price.value <= r.value
    ensures r.None? <==> forall i :: 0 <= i < |levels| ==> !PositivePriceAt(levels, i)
  {
    if |levels| == 0 then None
    else
      var rest := MaxPositive(levels[1..]);
      assert forall i :: 1 <= i < |levels| ==> levels[i] == levels[1..][i - 1] &&
                                                 PositivePriceAt(levels, i) == PositivePriceAt(levels[1..], i - 1);
      if !PositivePriceAt(levels, 0) then rest
      else if rest.None? || levels[0].price.value >= rest.value then levels[0].price
      else rest
  }

  /** `_get_best_ask`: the least positive ask, 0.0 when there is none or a price is malformed. */
  function BestAsk(book: OrderBook): (r: real)
    ensures r >= 0.0
    ensures r > 0.0 ==> exists i :: 0 <= i < |book.asks| && book.asks[i].price == Some(r)
    ensures r > 0.0 ==> forall i :: 0 <= i < |book.asks| && PositivePriceAt(book.asks, i) ==> r <= book.asks[i].price.value
    ensures r == 0.0 <==> Malformed(book.asks) || forall i :: 0 <= i < |book.asks| ==> !PositivePriceAt(book.asks, i)
  {
    if Malformed(book.asks) then 0.0 else MinPositive(book.asks).GetOr(0.0)
  }

  /** `_get_best_bid`: the greatest positive bid, 0.0 when there is none or a price is malformed. */
  function BestBid(book: OrderBook): (r: real)
    ensures r >= 0.0
    ensures r > 0.0 ==> exists i :: 0 <= i < |book.bids| && book.bids[i].price == Some(r)
    ensures r > 0.0 ==> forall i :: 0 <= i < |book.bids| && PositivePriceAt(book.bids, i) ==> book.bids[i].price.value <= r
    ensures r == 0.0 <==> Malformed(book.bids) || forall i :: 0 <= i < |book.bids| ==> !PositivePriceAt(book.bids, i)
  {
    if Malformed(book.bids) then 0.0 else MaxPositive(book.bids).GetOr(0.0)
  }

  // ---------------------------------------------------------------------
  // Picks and stakes.

  /** One market as the scan receives it. */
  datatype MarketData = MarketData(tid: string, question: string, side: string, endTime: real,
                                   marketId: string, conditionId: string, book: OrderBook)

  /** The analysis of a market the scan did not skip: the fields of a `coin_best_pick` entry. */
  datatype Candidate = Candidate(tid: string, coin: string, side: string, question: string, price: real,
                                 prob: real, edge: real, endTime: real, marketId: string, strike: real,
                                 spreadRatio: real, orderImbalance: real, thetaPremium: real, velocity: real)

  // ---------------------------------------------------------------------
  // The market analysis of the scan.

  /** The risk-free rate the scan leaves at the engine's default. */
  const RiskFreeRate: real := 0.0

  /** Transcendental functions whose square root keeps positive numbers positive. */
  type Math = m: Transcendentals | m.PositiveRoot() witness Transcendentals(x => x, x => 1.0, x => x)

  /**
   * What the scan reads per coin from the price feed (spot, blended
   * volatility, drift and expert signals, all refreshed before the read)
   * and the strike parsed from a question and coin, 0 when none parses.
   */
  datatype FeedView = FeedView(spot: string -> real, vol: string -> real, drift: string -> real,
                               signals: string -> BinanceFeed.ExpertSignals, strike: (string, string) -> real)

  /** The total size of the levels; a size that is missing or does not parse counts as 0. */
  function Depth(levels: seq<Level>): real
  {
    if |levels| == 0 then 0.0 else Depth(levels[..|levels| - 1]) + levels[|levels| - 1].size.GetOr(0.0)
  }

  /** The bid depth over the ask depth; with no ask depth, 999 when bids are present and 1 otherwise. */
  function OrderImbalance(book: OrderBook): (r: real)
    ensures Depth(book.asks) > 0.0 ==> r * Depth(book.asks) == Depth(book.bids)
    ensures Depth(book.asks) <= 0.0 ==> (Depth(book.bids) > 0.0 ==> r == 999.0) && (Depth(book.bids) <= 0.0 ==> r == 1.0)
  {
    var asks, bids := Depth(book.asks), Depth(book.bids);
    if asks > 0.0 then bids / asks else if bids > 0.0 then 999.0 else 1.0
  }

  /** With asks on the book, the imbalance reaches a threshold exactly when the bids outweigh the asks by that factor. */
  lemma {:induction false} ImbalanceThreshold(book: OrderBook, k: real)
    requires Depth(book.asks) > 0.0
    ensures OrderImbalance(book) >= k <==> Depth(book.bids) >= k * Depth(book.asks)
  {
    DivAtLeast(Depth(book.bids), Depth(book.asks), k);
  }

  /** The spread as a share of the ask: a negative spread counts as none. */
  function SpreadRatio(ask: real, bid: real): (r: real)
    requires ask > 0.0
    ensures r * ask == Max(0.0, ask - bid)
    ensures 0.0 <= r && (bid >= 0.0 ==> r <= 1.0)
  {
    var x := Max(0.0, ask - bid);
    MulDivCancel(x, ask);
    DivAtLeast(x, ask, 0.0);
    DivAtMost(x, ask, 1.0);
    x / ask
  }

  /** The premium of an ask over a probability below 10%, 0 otherwise. */
  function ThetaPremium(ask: real, prob: real): (r: real)
    ensures r >= 0.0
    ensures r > 0.0 <==> prob < 0.1 && ask > prob
    ensures r > 0.0 ==> r + prob == ask
  {
    if prob < 0.1 then Max(0.0, ask - prob) else 0.0
  }

  /** The model probability turned to the market's token: a NO token, then a "below" question, each flip it. */
  function SidedProb(base: real, side: string, above: bool): (r: real)
    ensures 0.0 <= base <= 1.0 ==> 0.0 <= r <= 1.0
  {
    var sided := if side == "YES" then base else 1.0 - base;
    if above then sided else 1.0 - sided
  }

  /** The two readings of a question give complementary probabilities, and a NO token below is the YES token above. */
  lemma {:induction false} SidedProbComplement(base: real, side: string)
    ensures SidedProb(base, side, true) + SidedProb(base, side, false) == 1.0
    ensures SidedProb(base, "NO", false) == SidedProb(base, "YES", true) == base
  {
  }

  /**
   * The analysis of one market in `run_ev_step`: None for a market the scan
   * skips (no coin named, no spot price, under ten seconds to expiry, no
   * ask), otherwise the candidate with its probability, edge and order-book
   * measures.  The velocity signal is read from expert signals that never
   * carry it, so it is always 0.
   */
  function Analyse(m: MarketData, now: real, feed: FeedView, volScale: real, tm: Math): (r: Option<Candidate>)
    ensures r.None? <==> ExtractCoin(m.question) == "" || feed.spot(ExtractCoin(m.question)) <= 0.0 ||
                         m.endTime - now < 10.0 || BestAsk(m.book) <= 0.0
    ensures r.Some? ==> r.value.tid == m.tid && r.value.side == m.side && r.value.question == m.question &&
                        r.value.coin == ExtractCoin(m.question) && r.value.price == BestAsk(m.book) &&
                        r.value.endTime == m.endTime && r.value.marketId == m.marketId &&
                        r.value.strike > 0.0 && r.value.velocity == 0.0 &&
                        ProbabilityEngine.ProbFloor <= r.value.prob <= ProbabilityEngine.ProbCeil &&
                        r.value.edge == ProbabilityEngine.CalculateEdge(r.value.prob, r.value.price, FeeRate) &&
                        0.0 <= r.value.spreadRatio <= 1.0 && r.value.thetaPremium >= 0.0
  {
    var coin := ExtractCoin(m.question);
    if coin == "" then None
    else
      var spot := feed.spot(coin);
      if spot <= 0.0 then None
      else
        var parsed := feed.strike(m.question, coin);
        var strike := if parsed <= 0.0 then spot else parsed;
        var timeToExpiry := m.endTime - now;
        if timeToExpiry < 10.0 then None
        else
          var base := ProbabilityEngine.CalculateBinaryProbability(spot, strike, feed.vol(coin), timeToExpiry,
                                                                  feed.drift(coin), RiskFreeRate, volScale, tm);
          var prob := ProbabilityEngine.AdjustProbByExpertSignals(SidedProb(base, m.side, IsAboveMarket(m.question)),
                                                                  feed.signals(coin)).prob;
          var ask, bid := BestAsk(m.book), BestBid(m.book);
          if ask <= 0.0 then None
          else
            Some(Candidate(m.tid, coin, m.side, m.question, ask, prob, ProbabilityEngine.CalculateEdge(prob, ask, FeeRate),
                           m.endTime, m.marketId, strike, SpreadRatio(ask, bid), OrderImbalance(m.book),
                           ThetaPremium(ask, prob), 0.0))
  }

  /** A strike that does not parse is replaced by the spot price. */
  lemma {:induction false} UnparsedStrikeIsSpot(m: MarketData, now: real, feed: FeedView, volScale: real, tm: Math)
    requires Analyse(m, now, feed, volScale, tm).Some?
    ensures var coin := ExtractCoin(m.question);
            Analyse(m, now, feed, volScale, tm).value.strike ==
              if feed.strike(m.question, coin) <= 0.0 then feed.spot(coin) else feed.strike(m.question, coin)
  {
  }

  /** The analysis as the function the pick loop consults. */
  function AnalyseWith(now: real, feed: FeedView, volScale: real, tm: Math): MarketData -> Option<Candidate>
  {
    d => Analyse(d, now, feed, volScale, tm)
  }

  /** A market the scan analyses: not held, and not skipped by the analysis. */
  predicate Eligible(m: MarketData, held: set<string>, analyse: MarketData -> Option<Candidate>)
  {
    m.tid !in held && analyse(m).Some?
  }

  /**
   * After the first `n` markets: each coin's pick is the analysis of an
   * eligible market `at[c]` among them, no eligible market of that coin has
   * a greater edge, and none before `at[c]` an equal one.
   */
  ghost predicate PicksUpTo(markets: seq<MarketData>, held: set<string>, analyse: MarketData -> Option<Candidate>,
                            n: nat, picks: map<string, Candidate>, at: map<string, nat>)
  {
    n <= |markets| && at.Keys == picks.Keys &&
    (forall c :: c in picks ==>
       at[c] < n && Eligible(markets[at[c]], held, analyse) && analyse(markets[at[c]]).value == picks[c] &&
       picks[c].coin == c) &&
    (forall i :: 0 <= i < n && Eligible(markets[i], held, analyse) ==>
       analyse(markets[i]).value.coin in picks &&
       analyse(markets[i]).value.edge <= picks[analyse(markets[i]).value.coin].edge) &&
    (forall c, i :: (c in picks && 0 <= i < at[c] && Eligible(markets[i], held, analyse) &&
                     analyse(markets[i]).value.coin == c) ==> analyse(markets[i]).value.edge < picks[c].edge)
  }

  /** One step of the pick loop keeps the pick invariant. */
  lemma {:induction false} PickStep(markets: seq<MarketData>, held: set<string>, analyse: MarketData -> Option<Candidate>,
                                    n: nat, picks: map<string, Candidate>, at: map<string, nat>)
    requires PicksUpTo(markets, held, analyse, n, picks, at) && n < |markets|
    ensures !Eligible(markets[n], held, analyse) ==> PicksUpTo(markets, held, analyse, n + 1, picks, at)
    ensures Eligible(markets[n], held, analyse) ==>
              var cand := analyse(markets[n]).value;
              if cand.coin !in picks || cand.edge > picks[cand.coin].edge then
                PicksUpTo(markets, held, analyse, n + 1, picks[cand.coin := cand], at[cand.coin := n])
              else PicksUpTo(markets, held, analyse, n + 1, picks, at)
  {
    if !Eligible(markets[n], held, analyse) {
      PickSkip(markets, held, analyse, n, picks, at);
    } else {
      var cand := analyse(markets[n]).value;
      if cand.coin !in picks || cand.edge > picks[cand.coin].edge {
        PickReplace(markets, held, analyse, n, picks, at);
      } else {
        PickKeep(markets, held, analyse, n, picks, at);
      }
    }
  }

  lemma PickSkip(markets: seq<MarketData>, held: set<string>, analyse: MarketData -> Option<Candidate>,
                 n: nat, picks: map<string, Candidate>, at: map<string, nat>)
    requires PicksUpTo(markets, held, analyse, n, picks, at) && n < |markets|
    requires !Eligible(markets[n], held, analyse)
    ensures PicksUpTo(markets, held, analyse, n + 1, picks, at)
  {
    forall i | 0 <= i < n + 1 && Eligible(markets[i], held, analyse)
      ensures analyse(markets[i]).value.coin in picks &&
              analyse(markets[i]).value.edge <= picks[analyse(markets[i]).value.coin].edge
    {
      assert i < n;
    }
  }

  lemma PickKeep(markets: seq<MarketData>, held: set<string>, analyse: MarketData -> Option<Candidate>,
                 n: nat, picks: map<string, Candidate>, at: map<string, nat>)
    requires PicksUpTo(markets, held, analyse, n, picks, at) && n < |markets|
    requires Eligible(markets[n], held, analyse)
    requires var cand := analyse(markets[n]).value; cand.coin in picks && cand.edge <= picks[cand.coin].edge
    ensures PicksUpTo(markets, held, analyse, n + 1, picks, at)
  {
    forall i | 0 <= i < n + 1 && Eligible(markets[i], held, analyse)
      ensures analyse(markets[i]).value.coin in picks &&
              analyse(markets[i]).value.edge <= picks[analyse(markets[i]).value.coin].edge
    {
      if i < n {
      }
    }
  }

  lemma PickReplace(markets: seq<MarketData>, held: set<string>, analyse: MarketData -> Option<Candidate>,
                    n: nat, picks: map<string, Candidate>, at: map<string, nat>)
    requires PicksUpTo(markets, held, analyse, n, picks, at) && n < |markets|
    requires Eligible(markets[n], held, analyse)
    requires var cand := analyse(markets[n]).value; cand.coin !in picks || cand.edge > picks[cand.coin].edge
    ensures var cand := analyse(markets[n]).value;
            PicksUpTo(markets, held, analyse, n + 1, picks[cand.coin := cand], at[cand.coin := n])
  {
    var cand := analyse(markets[n]).value;
    PickReplaceSources(markets, held, analyse, n, picks, at, cand);
    PickReplaceBest(markets, held, analyse, n, picks, at, cand);
    PickReplaceFirst(markets, held, analyse, n, picks, at, cand);
  }

  /** After a replacement every pick is still the analysis of an eligible market seen so far. */
  lemma PickReplaceSources(markets: seq<MarketData>, held: set<string>, analyse: MarketData -> Option<Candidate>,
                           n: nat, picks: map<string, Candidate>, at: map<string, nat>, cand: Candidate)
    requires PicksUpTo(markets, held, analyse, n, picks, at) && n < |markets|
    requires Eligible(markets[n], held, analyse) && cand == analyse(markets[n]).value
    ensures var picks', at' := picks[cand.coin := cand], at[cand.coin := n];
            forall c :: c in picks' ==>
              at'[c] < n + 1 && Eligible(markets[at'[c]], held, analyse) &&
              analyse(markets[at'[c]]).value == picks'[c] && picks'[c].coin == c
  {
    var picks', at' := picks[cand.coin := cand], at[cand.coin := n];
    forall c | c in picks'
      ensures at'[c] < n + 1 && Eligible(markets[at'[c]], held, analyse) &&
              analyse(markets[at'[c]]).value == picks'[c] && picks'[c].coin == c
    {
      if c != cand.coin {
        assert at'[c] == at[c] && picks'[c] == picks[c];
      }
    }
  }

  /** After a replacement no eligible market seen so far beats the pick of its coin. */
  lemma PickReplaceBest(markets: seq<MarketData>, held: set<string>, analyse: MarketData -> Option<Candidate>,
                        n: nat, picks: map<string, Candidate>, at: map<string, nat>, cand: Candidate)
    requires PicksUpTo(markets, held, analyse, n, picks, at) && n < |markets|
    requires Eligible(markets[n], held, analyse) && cand == analyse(markets[n]).value
    requires cand.coin !in picks || cand.edge > picks[cand.coin].edge
    ensures var picks' := picks[cand.coin := cand];
            forall i :: 0 <= i < n + 1 && Eligible(markets[i], held, analyse) ==>
              analyse(markets[i]).value.coin in picks' &&
              analyse(markets[i]).value.edge <= picks'[analyse(markets[i]).value.coin].edge
  {
    var picks' := picks[cand.coin := cand];
    forall i | 0 <= i < n + 1 && Eligible(markets[i], held, analyse)
      ensures analyse(markets[i]).value.coin in picks' &&
              analyse(markets[i]).value.edge <= picks'[analyse(markets[i]).value.coin].edge
    {
      if i < n && analyse(markets[i]).value.coin != cand.coin {
        assert picks'[analyse(markets[i]).value.coin] == picks[analyse(markets[i]).value.coin];
      }
    }
  }

  /** After a replacement every market of a coin before its pick has a strictly smaller edge. */
  lemma PickReplaceFirst(markets: seq<MarketData>, held: set<string>, analyse: MarketData -> Option<Candidate>,
                         n: nat, picks: map<string, Candidate>, at: map<string, nat>, cand: Candidate)
    requires PicksUpTo(markets, held, analyse, n, picks, at) && n < |markets|
    requires Eligible(markets[n], held, analyse) && cand == analyse(markets[n]).value
    requires cand.coin !in picks || cand.edge > picks[cand.coin].edge
    ensures var picks', at' := picks[cand.coin := cand], at[cand.coin := n];
            forall c, i :: (c in picks' && 0 <= i < at'[c] && Eligible(markets[i], held, analyse) &&
                            analyse(markets[i]).value.coin == c) ==> analyse(markets[i]).value.edge < picks'[c].edge
  {
    var picks', at' := picks[cand.coin := cand], at[cand.coin := n];
    forall c, i | c in picks' && 0 <= i < at'[c] && Eligible(markets[i], held, analyse) &&
                  analyse(markets[i]).value.coin == c
      ensures analyse(markets[i]).value.edge < picks'[c].edge
    {
      if c != cand.coin {
        assert at'[c] == at[c] && picks'[c] == picks[c];
      }
    }
  }

  /**
   * The pick loop of `run_ev_step`: per coin, the first candidate with the
   * greatest edge, coins in order of their first pick.  `held` are the tids
   * with an open position (the scan only refreshes their price); `analyse`
   * is the market analysis, None for a market the scan skips.  The ghost
   * `at` gives the market index of each pick.
   */
  method SelectBestPicks(markets: seq<MarketData>, held: set<string>, analyse: MarketData -> Option<Candidate>)
    returns (coins: seq<string>, picks: map<string, Candidate>, ghost at: map<string, nat>)
    ensures NoDuplicates(coins) && (forall c :: c in coins <==> c in picks)
    ensures PicksUpTo(markets, held, analyse, |markets|, picks, at)
    ensures Picks(coins, picks) == PickFold(markets, held, analyse, |markets|)
  {
    coins, picks, at := [], map[], map[];
    var i := 0;
    while i < |markets|
      invariant 0 <= i <= |markets|
      invariant NoDuplicates(coins) && (forall c :: c in coins <==> c in picks)
      invariant PicksUpTo(markets, held, analyse, i, picks, at)
      invariant Picks(coins, picks) == PickFold(markets, held, analyse, i)
    {
      coins, picks, at := PickOne(markets, held, analyse, i, coins, picks, at);
      PickFoldNext(markets, held, analyse, i);
      i := i + 1;
    }
  }

  /** One market of the pick loop. */
  method PickOne(markets: seq<MarketData>, held: set<string>, analyse: MarketData -> Option<Candidate>, i: nat,
                 coins: seq<string>, picks: map<string, Candidate>, ghost at: map<string, nat>)
    returns (coins': seq<string>, picks': map<string, Candidate>, ghost at': map<string, nat>)
    requires i < |markets| && NoDuplicates(coins) && (forall c :: c in coins <==> c in picks)
    requires PicksUpTo(markets, held, analyse, i, picks, at)
    ensures NoDuplicates(coins') && (forall c :: c in coins' <==> c in picks')
    ensures PicksUpTo(markets, held, analyse, i + 1, picks', at')
    ensures Picks(coins', picks') == NextPicks(Picks(coins, picks), markets[i], held, analyse)
  {
    PickStep(markets, held, analyse, i, picks, at);
    coins', picks', at' := coins, picks, at;
    var data := markets[i];
    if data.tid !in held {
      var analysed := analyse(data);
      if analysed.Some? {
        var cand := analysed.value;
        if cand.coin !in picks || cand.edge > picks[cand.coin].edge {
          coins' := Insert(coins, cand.coin);
          picks' := picks[cand.coin := cand];
          at' := at[cand.coin := i];
        }
      }
    }
  }

  /** The picks of the scan: the coins in first-pick order and each coin's pick. */
  datatype Picks = Picks(coins: seq<string>, best: map<string, Candidate>)

  /** One market of the pick loop: its candidate becomes the coin's pick when the coin has none or a smaller edge. */
  function NextPicks(r: Picks, data: MarketData, held: set<string>, analyse: MarketData -> Option<Candidate>): Picks
  {
    if !Eligible(data, held, analyse) then r
    else
      var cand := analyse(data).value;
      if cand.coin !in r.best || cand.edge > r.best[cand.coin].edge then
        Picks(Insert(r.coins, cand.coin), r.best[cand.coin := cand])
      else r
  }

  /** The pick loop over the first `n` markets, as a fold. */
  function PickFold(markets: seq<MarketData>, held: set<string>, analyse: MarketData -> Option<Candidate>,
                    n: nat): Picks
    requires n <= |markets|
  {
    if n == 0 then Picks([], map[]) else NextPicks(PickFold(markets, held, analyse, n - 1), markets[n - 1], held, analyse)
  }

  lemma PickFoldNext(markets: seq<MarketData>, held: set<string>, analyse: MarketData -> Option<Candidate>, n: nat)
    requires n < |markets|
    ensures PickFold(markets, held, analyse, n + 1) == NextPicks(PickFold(markets, held, analyse, n), markets[n], held, analyse)
  {
  }

  /** The picked coins are distinct and are exactly the coins with a pick. */
  lemma {:induction false} PickFoldCoins(markets: seq<MarketData>, held: set<string>,
                                         analyse: MarketData -> Option<Candidate>, n: nat)
    requires n <= |markets|
    ensures var r := PickFold(markets, held, analyse, n);
            NoDuplicates(r.coins) && forall c :: c in r.coins <==> c in r.best
  {
    if n > 0 {
      PickFoldCoins(markets, held, analyse, n - 1);
    }
  }

  /** A scan whose analysis never reports a velocity picks only candidates with velocity 0. */
  lemma {:induction false} ScanVelocityZero(markets: seq<MarketData>, held: set<string>,
                                            analyse: MarketData -> Option<Candidate>, n: nat)
    requires n <= |markets|
    requires forall d :: analyse(d).Some? ==> analyse(d).value.velocity == 0.0
    ensures forall c :: c in PickFold(markets, held, analyse, n).best ==>
                          PickFold(markets, held, analyse, n).best[c].velocity == 0.0
  {
    if n > 0 {
      ScanVelocityZero(markets, held, analyse, n - 1);
    }
  }

  /** So the Imbalance_Sniper persona never enters on a pick of the analysed scan. */
  lemma {:induction false} SniperNeverEnters(markets: seq<MarketData>, held: set<string>, now: real, feed: FeedView,
                                             volScale: real, tm: Math, c: string, firstSeen: Option<real>, t: real)
    requires c in PickFold(markets, held, AnalyseWith(now, feed, volScale, tm), |markets|).best
    ensures EntryDecision("Imbalance_Sniper", PickFold(markets, held, AnalyseWith(now, feed, volScale, tm), |markets|).best[c],
                          firstSeen, t).None?
  {
    var analyse := AnalyseWith(now, feed, volScale, tm);
    forall d | analyse(d).Some?
      ensures analyse(d).value.velocity == 0.0
    {
      assert analyse(d) == Analyse(d, now, feed, volScale, tm);
    }
    ScanVelocityZero(markets, held, analyse, |markets|);
  }

  /**
   * The `_imbalance_tracker` update: a tid whose imbalance reaches 2.0 is
   * tracked from its first sighting, one that drops below 1.5 is forgotten.
   */
  function UpdateTracker(tracker: map<string, real>, tid: string, imbalance: real, now: real): (r: map<string, real>)
    ensures forall t :: t != tid ==> (t in r <==> t in tracker) && (t in r ==> r[t] == tracker[t])
    ensures tid in r <==> (tid in tracker && imbalance >= 1.5) || imbalance >= 2.0
  {
    if imbalance >= 2.0 then
      if tid !in tracker then tracker[tid := now] else tracker
    else if imbalance < 1.5 && tid in tracker then tracker - {tid}
    else tracker
  }

  /** Between the two thresholds the tracker keeps the first sighting: the hysteresis. */
  lemma TrackerKeepsFirstSighting(tracker: map<string, real>, tid: string, imbalance: real, now: real)
    requires tid in tracker && imbalance >= 1.5
    ensures UpdateTracker(tracker, tid, imbalance, now)[tid] == tracker[tid]
  {
  }

  /**
   * The entry rule of each persona.  Spread_Fisher re-prices its pick at
   * five points under the model probability and recomputes the edge;
   * `firstSeen` is the tracker entry of the tid the rule consults.
   */
  function EntryDecision(strategy: string, pick: Candidate, firstSeen: Option<real>, now: real): (r: Option<Candidate>)
    ensures r.Some? && strategy != "Spread_Fisher" ==> r.value == pick
    ensures r.Some? ==> strategy == "Theta_Reaper" || strategy == "Spread_Fisher" || strategy == "Imbalance_Sniper"
  {
    if strategy == "Theta_Reaper" then
      if pick.prob >= 0.85 && pick.edge >= 0.015 then Some(pick) else None
    else if strategy == "Spread_Fisher" then
      if pick.spreadRatio >= 0.10 && 0.40 <= pick.prob <= 0.60 then
        var price := Max(0.01, pick.prob - 0.05);
        Some(pick.(price := price, edge := ProbabilityEngine.CalculateEdge(pick.prob, price, FeeRate)))
      else None
    else if strategy == "Imbalance_Sniper" then
      if firstSeen.Some? && now - firstSeen.value >= 15.0 && pick.velocity >= 0.5 && 0.20 <= pick.prob <= 0.80
         && pick.edge >= 0.0 then Some(pick)
      else None
    else None
  }

  /** Each persona enters only under its own thresholds. */
  lemma {:induction false} EntryThresholds(strategy: string, pick: Candidate, firstSeen: Option<real>, now: real)
    requires EntryDecision(strategy, pick, firstSeen, now).Some?
    ensures strategy == "Theta_Reaper" ==> pick.prob >= 0.85 && pick.edge >= 0.015
    ensures strategy == "Spread_Fisher" ==>
              pick.spreadRatio >= 0.10 && 0.40 <= pick.prob <= 0.60 &&
              EntryDecision(strategy, pick, firstSeen, now).value.price >= 0.01
    ensures strategy == "Imbalance_Sniper" ==>
              firstSeen.Some? && now - firstSeen.value >= 15.0 && 0.20 <= pick.prob <= 0.80 && pick.edge >= 0.0
  {
  }

  /** A fished price at or above the model probability minus five points keeps the edge the engine computes. */
  lemma {:induction false} SpreadFisherEdge(pick: Candidate, firstSeen: Option<real>, now: real)
    requires EntryDecision("Spread_Fisher", pick, firstSeen, now).Some?
    ensures var e := EntryDecision("Spread_Fisher", pick, firstSeen, now).value;
            e.edge == ProbabilityEngine.CalculateEdge(pick.prob, e.price, FeeRate) && e.price == pick.prob - 0.05
  {
  }

  /**
   * The stake of `run_ev_step`: the Kelly stake capped by the bankroll
   * fraction and the absolute cap, then raised to the minimum bet.
   */
  function StakeFor(kellyStake: real, bankroll: real, s: Settings): (r: real)
    ensures r >= s.minBetUsdc
  {
    Max(Min(kellyStake, Min(bankroll * s.maxBetFraction, s.maxBetAmount)), s.minBetUsdc)
  }

  /** Even a Kelly stake of zero becomes a bet of the minimum size. */
  lemma {:induction false} ZeroKellyStillBets(bankroll: real, s: Settings)
    requires s.minBetUsdc >= 0.0
    ensures StakeFor(0.0, bankroll, s) == s.minBetUsdc
  {
  }

  /** The stake respects both caps unless the minimum bet exceeds them, and a Kelly stake within bounds is kept. */
  lemma {:induction false} StakeWithinCaps(kellyStake: real, bankroll: real, s: Settings)
    ensures s.minBetUsdc <= Min(bankroll * s.maxBetFraction, s.maxBetAmount) ==>
              StakeFor(kellyStake, bankroll, s) <= bankroll * s.maxBetFraction &&
              StakeFor(kellyStake, bankroll, s) <= s.maxBetAmount
    ensures s.minBetUsdc <= kellyStake <= Min(bankroll * s.maxBetFraction, s.maxBetAmount) ==>
              StakeFor(kellyStake, bankroll, s) == kellyStake
  {
  }

  // ---------------------------------------------------------------------
  // Entry sizing.

  /** `_place_bet`'s size: clamped to 95% of a smaller bankroll, then rounded with the 0.01 floor. */
  function EntrySize(sizeUsdc: real, bankroll: real): (r: real)
    ensures r > 0.0
  {
    ClientWrapper.SafeRound(if sizeUsdc > bankroll then bankroll * 0.95 else sizeUsdc)
  }

  /** The entry size is within half a cent of the requested size, or of 95% of a smaller bankroll. */
  lemma {:induction false} EntrySizeClose(sizeUsdc: real, bankroll: real)
    ensures sizeUsdc <= bankroll && sizeUsdc >= 0.005 ==>
              sizeUsdc - 0.005 < EntrySize(sizeUsdc, bankroll) <= sizeUsdc + 0.005
    ensures sizeUsdc > bankroll && bankroll * 0.95 >= 0.005 ==>
              bankroll * 0.95 - 0.005 < EntrySize(sizeUsdc, bankroll) <= bankroll * 0.95 + 0.005
  {
    if sizeUsdc <= bankroll && sizeUsdc >= 0.005 {
      ClientWrapper.SafeRoundClose(sizeUsdc);
    }
    if sizeUsdc > bankroll && bankroll * 0.95 >= 0.005 {
      ClientWrapper.SafeRoundClose(bankroll * 0.95);
    }
  }

  /** The paper debit of an entry: the size plus the slippage charge. */
  function PaperDebit(size: real): real
  {
    size + size * PaperSlippage
  }

  // ---------------------------------------------------------------------
  // The ledger.

  /** An open position; `lastCheck` is its last oracle check, 0 before the first. */
  datatype Position = Position(coin: string, question: string, entryPrice: real, sizeUsdc: real, shares: real,
                               fairProb: real, edge: real, entryTime: real, endTime: real, side: string,
                               marketId: string, strike: real, lastCheck: real, currentPrice: Option<real>)

  datatype Stats = Stats(totalBets: nat, wins: nat, losses: nat, totalWagered: real, totalPnl: real,
                         maxDrawdown: real, peakBankroll: real)

  /** Cash and statistics, the part of the ledger a settlement books. */
  datatype Book = Book(bankroll: real, stats: Stats)

  /** Sum of the open stakes, in key order. */
  function Invested(order: seq<string>, positions: map<string, Position>): real
    requires forall t :: t in order ==> t in positions
  {
    if |order| == 0 then 0.0
    else Invested(order[..|order| - 1], positions) + positions[order[|order| - 1]].sizeUsdc
  }

  /** What a winning position pays after the fee. */
  function NetPayout(pos: Position): real
  {
    pos.shares * 1.0 - pos.shares * 1.0 * FeeRate
  }

  /** `_settle_as_win`: a paper win credits the net payout; the peak follows the bankroll up. */
  function SettleWin(b: Book, pos: Position, paper: bool): (r: Book)
    ensures r.stats.wins == b.stats.wins + 1 && r.stats.losses == b.stats.losses
    ensures r.stats.totalPnl == b.stats.totalPnl + (NetPayout(pos) - pos.sizeUsdc)
    ensures r.stats.peakBankroll == Max(b.stats.peakBankroll, r.bankroll)
    ensures r.stats.maxDrawdown == b.stats.maxDrawdown
  {
    var bankroll := if paper then b.bankroll + NetPayout(pos) else b.bankroll;
    var peak := if bankroll > b.stats.peakBankroll then bankroll else b.stats.peakBankroll;
    Book(bankroll, b.stats.(wins := b.stats.wins + 1, totalPnl := b.stats.totalPnl + (NetPayout(pos) - pos.sizeUsdc),
                            peakBankroll := peak))
  }

  /** The drawdown of an equity from the larger of itself and the recorded peak. */
  function Drawdown(equity: real, peak: real): real
  {
    var currentPeak := Max(peak, equity);
    if currentPeak > 0.0 then 1.0 - equity / currentPeak else 0.0
  }

  /** A positive equity is below its peak by a fraction in [0, 1). */
  lemma {:induction false} DrawdownInUnit(equity: real, peak: real)
    requires equity > 0.0
    ensures 0.0 <= Drawdown(equity, peak) < 1.0
  {
    var currentPeak := Max(peak, equity);
    DivLeft(equity, currentPeak, currentPeak);
    assert equity / currentPeak > 0.0;
  }

  /**
   * `_settle_as_loss`: the stake was paid at entry, so the cash is kept;
   * the drawdown is measured on the equity including the open stakes.
   */
  function SettleLoss(b: Book, pos: Position, invested: real): (r: Book)
    ensures r.bankroll == b.bankroll
    ensures r.stats.losses == b.stats.losses + 1 && r.stats.wins == b.stats.wins
    ensures r.stats.totalPnl == b.stats.totalPnl - pos.sizeUsdc
    ensures r.stats.maxDrawdown == Max(b.stats.maxDrawdown, Drawdown(b.bankroll + invested, b.stats.peakBankroll))
    ensures r.stats.peakBankroll == b.stats.peakBankroll
  {
    var dd := Drawdown(b.bankroll + invested, b.stats.peakBankroll);
    var maxDd := if dd > b.stats.maxDrawdown then dd else b.stats.maxDrawdown;
    Book(b.bankroll, b.stats.(losses := b.stats.losses + 1, totalPnl := b.stats.totalPnl + -pos.sizeUsdc,
                              maxDrawdown := maxDd))
  }

  /** The state of a settlement pass: positions, book and the tids to remove. */
  datatype Pass = Pass(positions: map<string, Position>, book: Book, removed: seq<string>)

  /** A position past its end whose last oracle check is at least ten seconds old. */
  predicate Due(pos: Position, now: real)
  {
    now >= pos.endTime && now - pos.lastCheck >= ResolutionInterval
  }

  /** An oracle answer that settles: neither missing nor "WAITING". */
  predicate Decided(answer: Option<string>)
  {
    answer.Some? && answer.value != "WAITING"
  }

  /** One position of `_settle_expired_positions`. */
  function SettleOne(order: seq<string>, pass: Pass, paper: bool, now: real, oracle: string -> Option<string>,
                     tid: string): (r: Pass)
    requires tid in pass.positions && forall t :: t in order ==> t in pass.positions
    ensures r.positions.Keys == pass.positions.Keys
    ensures r.removed == pass.removed || r.removed == pass.removed + [tid]
  {
    var pos := pass.positions[tid];
    if !Due(pos, now) then pass
    else
      var checked := pass.positions[tid := pos.(lastCheck := now)];
      var answer := oracle(pos.marketId);
      if !Decided(answer) then pass.(positions := checked)
      else if answer.value == pos.side then Pass(checked, SettleWin(pass.book, pos, paper), pass.removed + [tid])
      else Pass(checked, SettleLoss(pass.book, pos, Invested(order, checked)), pass.removed + [tid])
  }

  /** The pass over the positions from the `i`-th key on. */
  function SettleFrom(order: seq<string>, pass: Pass, paper: bool, now: real, oracle: string -> Option<string>,
                      i: nat): (r: Pass)
    requires i <= |order| && forall t :: t in order ==> t in pass.positions
    ensures r.positions.Keys == pass.positions.Keys
    ensures |r.removed| >= |pass.removed| && r.removed[..|pass.removed|] == pass.removed
    decreases |order| - i
  {
    if i == |order| then pass
    else SettleFrom(order, SettleOne(order, pass, paper, now, oracle, order[i]), paper, now, oracle, i + 1)
  }

  /** A settled position is booked exactly once: wins plus losses grow by the number removed. */
  lemma {:induction false} SettleCounts(order: seq<string>, pass: Pass, paper: bool, now: real,
                                        oracle: string -> Option<string>, i: nat)
    requires i <= |order| && forall t :: t in order ==> t in pass.positions
    ensures var r := SettleFrom(order, pass, paper, now, oracle, i);
            |r.removed| >= |pass.removed| &&
            r.book.stats.wins + r.book.stats.losses == pass.book.stats.wins + pass.book.stats.losses + (|r.removed| - |pass.removed|)
    decreases |order| - i
  {
    if i < |order| {
      SettleCounts(order, SettleOne(order, pass, paper, now, oracle, order[i]), paper, now, oracle, i + 1);
    }
  }

  /** Settlement never lowers the recorded peak nor the recorded maximum drawdown. */
  lemma {:induction false} SettleMonotone(order: seq<string>, pass: Pass, paper: bool, now: real,
                                          oracle: string -> Option<string>, i: nat)
    requires i <= |order| && forall t :: t in order ==> t in pass.positions
    ensures var r := SettleFrom(order, pass, paper, now, oracle, i);
            r.book.stats.peakBankroll >= pass.book.stats.peakBankroll &&
            r.book.stats.maxDrawdown >= pass.book.stats.maxDrawdown
    decreases |order| - i
  {
    if i < |order| {
      SettleMonotone(order, SettleOne(order, pass, paper, now, oracle, order[i]), paper, now, oracle, i + 1);
    }
  }

  /** A step removes its own tid only when that position is due and its answer decided. */
  lemma SettleOneRemoves(order: seq<string>, pass: Pass, paper: bool, now: real, oracle: string -> Option<string>,
                         tid: string)
    requires tid in pass.positions && forall t :: t in order ==> t in pass.positions
    ensures var r := SettleOne(order, pass, paper, now, oracle, tid);
            (r.removed == pass.removed + [tid] ==>
               Due(pass.positions[tid], now) && Decided(oracle(pass.positions[tid].marketId))) &&
            forall t :: t in pass.positions && t != tid ==> r.positions[t] == pass.positions[t]
  {
  }

  /**
   * Only due positions with a decided oracle answer are removed, each at
   * most once; `orig` are the positions before the pass.
   */
  lemma {:induction false} SettleRemovesOnlyDecided(order: seq<string>, orig: map<string, Position>, pass: Pass,
                                                    paper: bool, now: real, oracle: string -> Option<string>, i: nat)
    requires i <= |order| && NoDuplicates(order) && forall t :: t in order ==> t in pass.positions && t in orig
    requires forall j :: i <= j < |order| ==> pass.positions[order[j]] == orig[order[j]]
    requires NoDuplicates(pass.removed) && forall t :: t in pass.removed ==> t in order[..i]
    ensures var r := SettleFrom(order, pass, paper, now, oracle, i);
            NoDuplicates(r.removed) &&
            forall t :: t in r.removed ==>
              t in pass.removed || (t in orig && Due(orig[t], now) && Decided(oracle(orig[t].marketId)))
    decreases |order| - i
  {
    if i < |order| {
      var tid := order[i];
      var next := SettleOne(order, pass, paper, now, oracle, tid);
      SettleOneRemoves(order, pass, paper, now, oracle, tid);
      assert forall j :: i < j < |order| ==> order[j] != tid;
      assert tid !in order[..i];
      if next.removed != pass.removed {
        ConsNoDuplicatesLast(pass.removed, tid);
      }
      assert order[..i + 1] == order[..i] + [tid];
      SettleRemovesOnlyDecided(order, orig, next, paper, now, oracle, i + 1);
    }
  }

  lemma ConsNoDuplicatesLast(s: seq<string>, x: string)
    requires NoDuplicates(s) && x !in s
    ensures NoDuplicates(s + [x])
  {
  }

  /** The bot halts when the equity is gone or half of the reference peak is lost. */
  predicate HaltCondition(equity: real, peak: real, initial: real)
  {
    equity <= 0.0 || 1.0 - equity / Max(Max(peak, equity), initial) >= DrawdownHaltPct
  }

  /** With a positive equity the halt is exactly "equity at most half of max(peak, equity, initial)". */
  lemma {:induction false} HaltAtHalfOfPeak(equity: real, peak: real, initial: real)
    requires equity > 0.0
    ensures HaltCondition(equity, peak, initial) <==> equity <= 0.5 * Max(Max(peak, equity), initial)
  {
    var m := Max(Max(peak, equity), initial);
    DivAtMost(equity, m, 0.5);
  }

  /**
   * The starting bankroll: the configured one on paper; live, the wallet
   * balance when above 0.05, else 0 (debug) or the configured one.
   */
  function InitialBankroll(paper: bool, debugMode: bool, configured: real, realBalance: real): (r: real)
    ensures configured >= 0.0 ==> r >= 0.0
    ensures !paper && realBalance > 0.05 ==> r == realBalance
    ensures paper ==> r == configured
  {
    if paper then configured
    else if realBalance > 0.05 then realBalance
    else if debugMode then (if realBalance > 0.0 then realBalance else 0.0)
    else configured
  }

  // ---------------------------------------------------------------------
  // The ledger as a value, and what each part of the scan does to it.

  /** The state the strategy keeps between scans. */
  datatype Ledger = Ledger(bankroll: real, order: seq<string>, positions: map<string, Position>,
                           tracker: map<string, real>, stats: Stats)

  /** The insertion order lists every position exactly once. */
  ghost predicate LedgerValid(l: Ledger)
  {
    NoDuplicates(l.order) && forall t :: t in l.order <==> t in l.positions
  }

  /** Another tid already holds a position on the same question. */
  ghost predicate HoldsOppositeIn(positions: map<string, Position>, tid: string, question: string)
  {
    exists t :: t in positions && t != tid && positions[t].question == question
  }

  /**
   * `_place_bet` on the ledger.  A position on the same question under
   * another tid, a live entry without a client or a live order the venue
   * refuses leave the ledger as it is; otherwise the position is recorded
   * at the rounded price with the clamped size, counted, and paid for.
   */
  ghost function AfterBet(s: Settings, l: Ledger, tid: string, coin: string, question: string, entryPrice: real,
                          sizeUsdc: real, fairProb: real, edge: real, endTime: real, side: string, marketId: string,
                          strike: real, now: real, hasClient: bool, post: ClientWrapper.OrderArgs -> Option<string>,
                          liveBalance: real): (r: Ledger)
    ensures r.tracker == l.tracker
    ensures l.positions.Keys <= r.positions.Keys <= l.positions.Keys + {tid}
    ensures |r.positions| <= |l.positions| + 1
    ensures LedgerValid(l) ==> LedgerValid(r)
  {
    var size := EntrySize(sizeUsdc, l.bankroll);
    var price := ClientWrapper.SafeRound(entryPrice);
    if HoldsOppositeIn(l.positions, tid, question) ||
       (!s.paperTrading &&
        (!hasClient || !ClientWrapper.PlaceLimitOrder(false, true, tid, price, size / price, "BUY", post).Posted?))
    then l
    else
      Ledger(if s.paperTrading then l.bankroll - PaperDebit(size) else if liveBalance > 0.0 then liveBalance else l.bankroll,
             Insert(l.order, tid),
             l.positions[tid := Position(coin, question, price, size, size / price, fairProb, edge, now, endTime, side,
                                         marketId, strike, 0.0, None)],
             l.tracker,
             l.stats.(totalBets := l.stats.totalBets + 1,
                      totalWagered := l.stats.totalWagered + (if s.paperTrading then size else 0.0)))
  }

  /**
   * One pick of the entry loop: the imbalance tracker is updated for
   * `lastTid`, the persona decides, and an accepted pick is staked and
   * placed.
   */
  ghost function EnterStep(s: Settings, l: Ledger, pick: Candidate, lastTid: string, now: real, hasClient: bool,
                           post: ClientWrapper.OrderArgs -> Option<string>, liveBalance: real): (r: Ledger)
    ensures LedgerValid(l) ==> LedgerValid(r)
    ensures l.positions.Keys <= r.positions.Keys && |r.positions| <= |l.positions| + 1
  {
    var tracker := UpdateTracker(l.tracker, lastTid, pick.orderImbalance, now);
    var tracked := l.(tracker := tracker);
    var firstSeen := if lastTid in tracker then Some(tracker[lastTid]) else None;
    var decision := EntryDecision(s.strategyName, pick, firstSeen, now);
    if decision.None? then tracked
    else
      var p := decision.value;
      var kelly := KellySizing.KellyBetSize(tracked.bankroll, p.prob, p.price, FeeRate, s.kellyFraction,
                                            KellyMaxBetFraction, KellyMinBet);
      var bet := StakeFor(kelly, tracked.bankroll, s);
      if bet >= s.minBetUsdc then
        AfterBet(s, tracked, p.tid, p.coin, p.question, p.price, bet, p.prob, p.edge, p.endTime, p.side, p.marketId,
                 p.strike, now, hasClient, post, liveBalance)
      else tracked
  }

  /** The entry loop from the `i`-th picked coin on; it stops once the position limit is reached. */
  ghost function EnterFrom(s: Settings, l: Ledger, coins: seq<string>, picks: map<string, Candidate>, i: nat,
                           lastTid: string, now: real, hasClient: bool, post: ClientWrapper.OrderArgs -> Option<string>,
                           liveBalance: real): Ledger
    requires i <= |coins| && forall c :: c in coins ==> c in picks
    decreases |coins| - i
  {
    if i == |coins| || |l.positions| >= s.maxConcurrentBets then l
    else EnterFrom(s, EnterStep(s, l, picks[coins[i]], lastTid, now, hasClient, post, liveBalance), coins, picks, i + 1,
                   lastTid, now, hasClient, post, liveBalance)
  }

  lemma EnterFromNext(s: Settings, l: Ledger, coins: seq<string>, picks: map<string, Candidate>, i: nat,
                      lastTid: string, now: real, hasClient: bool, post: ClientWrapper.OrderArgs -> Option<string>,
                      liveBalance: real)
    requires i < |coins| && |l.positions| < s.maxConcurrentBets && forall c :: c in coins ==> c in picks
    ensures EnterFrom(s, l, coins, picks, i, lastTid, now, hasClient, post, liveBalance) ==
              EnterFrom(s, EnterStep(s, l, picks[coins[i]], lastTid, now, hasClient, post, liveBalance), coins, picks,
                        i + 1, lastTid, now, hasClient, post, liveBalance)
  {
  }

  lemma EnterFromStop(s: Settings, l: Ledger, coins: seq<string>, picks: map<string, Candidate>, i: nat,
                      lastTid: string, now: real, hasClient: bool, post: ClientWrapper.OrderArgs -> Option<string>,
                      liveBalance: real)
    requires i <= |coins| && forall c :: c in coins ==> c in picks
    requires i == |coins| || |l.positions| >= s.maxConcurrentBets
    ensures EnterFrom(s, l, coins, picks, i, lastTid, now, hasClient, post, liveBalance) == l
  {
  }

  /**
   * The entry loop keeps the ledger consistent, never drops a position and
   * never grows the ledger beyond the concurrent-bet limit.
   */
  lemma {:induction false} EnterFromBounded(s: Settings, l: Ledger, coins: seq<string>, picks: map<string, Candidate>,
                                            i: nat, lastTid: string, now: real, hasClient: bool,
                                            post: ClientWrapper.OrderArgs -> Option<string>, liveBalance: real)
    requires i <= |coins| && forall c :: c in coins ==> c in picks
    ensures LedgerValid(l) ==> LedgerValid(EnterFrom(s, l, coins, picks, i, lastTid, now, hasClient, post, liveBalance))
    ensures l.positions.Keys <= EnterFrom(s, l, coins, picks, i, lastTid, now, hasClient, post, liveBalance).positions.Keys
    ensures |EnterFrom(s, l, coins, picks, i, lastTid, now, hasClient, post, liveBalance).positions| <= |l.positions| ||
            |EnterFrom(s, l, coins, picks, i, lastTid, now, hasClient, post, liveBalance).positions| <= s.maxConcurrentBets
    decreases |coins| - i
  {
    if i < |coins| && |l.positions| < s.maxConcurrentBets {
      var next := EnterStep(s, l, picks[coins[i]], lastTid, now, hasClient, post, liveBalance);
      EnterFromNext(s, l, coins, picks, i, lastTid, now, hasClient, post, liveBalance);
      EnterFromBounded(s, next, coins, picks, i + 1, lastTid, now, hasClient, post, liveBalance);
    } else {
      EnterFromStop(s, l, coins, picks, i, lastTid, now, hasClient, post, liveBalance);
    }
  }

  /** The best bid of the last listed market with that tid, None when none is listed. */
  function LastQuote(markets: seq<MarketData>, tid: string): (r: Option<real>)
    ensures r.Some? ==> exists i :: 0 <= i < |markets| && markets[i].tid == tid && r.value == BestBid(markets[i].book)
  {
    if |markets| == 0 then None
    else if markets[|markets| - 1].tid == tid then Some(BestBid(markets[|markets| - 1].book))
    else LastQuote(markets[..|markets| - 1], tid)
  }

  /** The scan's refresh of held positions as a fold: each listed held tid takes the best bid as its price. */
  function Refreshed(positions: map<string, Position>, markets: seq<MarketData>): (r: map<string, Position>)
    ensures r.Keys == positions.Keys
  {
    if |markets| == 0 then positions
    else
      var prev := Refreshed(positions, markets[..|markets| - 1]);
      var data := markets[|markets| - 1];
      if data.tid in prev then prev[data.tid := prev[data.tid].(currentPrice := Some(BestBid(data.book)))] else prev
  }

  /**
   * After the refresh a held position is unchanged but for its current
   * price, which is the bid of the last listed market with its tid, and
   * stays as it was when no market lists it.
   */
  lemma {:induction false} RefreshedIsLastQuote(positions: map<string, Position>, markets: seq<MarketData>, t: string)
    requires t in positions
    ensures Refreshed(positions, markets)[t] ==
              positions[t].(currentPrice := if LastQuote(markets, t).Some? then LastQuote(markets, t)
                                            else positions[t].currentPrice)
  {
    if |markets| > 0 {
      RefreshedIsLastQuote(positions, markets[..|markets| - 1], t);
    }
  }

  /** `_settle_expired_positions` on the ledger: the settlement pass, then the settled positions are dropped. */
  ghost function Settled(s: Settings, l: Ledger, now: real, oracle: string -> Option<string>): Ledger
    requires LedgerValid(l)
  {
    var p := SettleFrom(l.order, Pass(l.positions, Book(l.bankroll, l.stats), []), s.paperTrading, now, oracle, 0);
    Ledger(p.book.bankroll, RemoveAll(l.order, p.removed), Without(p.positions, p.removed), l.tracker, p.book.stats)
  }

  /**
   * The market scan and the entry loop on the ledger: the held positions
   * are re-priced, the picks chosen among the other markets and entered,
   * with the tracker keyed on the last scanned tid.
   */
  ghost function ScanAndEnter(s: Settings, l: Ledger, markets: seq<MarketData>, now: real,
                              analyse: MarketData -> Option<Candidate>, hasClient: bool,
                              post: ClientWrapper.OrderArgs -> Option<string>, liveBalance: real): Ledger
  {
    var refreshed := l.(positions := Refreshed(l.positions, markets));
    var picks := PickFold(markets, l.positions.Keys, analyse, |markets|);
    PickFoldCoins(markets, l.positions.Keys, analyse, |markets|);
    if |markets| == 0 then refreshed
    else EnterFrom(s, refreshed, picks.coins, picks.best, 0, markets[|markets| - 1].tid, now, hasClient, post, liveBalance)
  }

  class EVStrategy {
    const settings: Settings
    const initialBankroll: real
    var bankroll: real
    /** The tids of `positions` in insertion order. */
    var order: seq<string>
    var positions: map<string, Position>
    var imbalanceTracker: map<string, real>
    var stats: Stats

    ghost predicate Valid()
      reads this
    {
      NoDuplicates(order) && forall t :: t in order <==> t in positions
    }

    constructor (settings: Settings, initialBankroll: real)
      ensures Valid()
      ensures this.settings == settings && this.initialBankroll == initialBankroll && bankroll == initialBankroll
      ensures positions == map[] && order == [] && imbalanceTracker == map[]
      ensures stats == Stats(0, 0, 0, 0.0, 0.0, 0.0, initialBankroll)
    {
      this.settings := settings;
      this.initialBankroll := initialBankroll;
      bankroll := initialBankroll;
      order := [];
      positions := map[];
      imbalanceTracker := map[];
      stats := Stats(0, 0, 0, 0.0, 0.0, 0.0, initialBankroll);
    }

    /** The state as a value. */
    function Snapshot(): Ledger
      reads this
    {
      Ledger(bankroll, order, positions, imbalanceTracker, stats)
    }

    function Equity(): real
      requires Valid()
      reads this
    {
      bankroll + Invested(order, positions)
    }

    /** The anti-hedging scan of `_place_bet`. */
    method FindOpposite(tid: string, question: string) returns (found: bool)
      requires Valid()
      ensures found <==> HoldsOppositeIn(positions, tid, question)
    {
      var k := 0;
      while k < |order|
        invariant 0 <= k <= |order|
        invariant forall j :: 0 <= j < k ==> order[j] == tid || positions[order[j]].question != question
      {
        var t := order[k];
        if positions[t].question == question && t != tid {
          return true;
        }
        k := k + 1;
      }
      return false;
    }

    /**
     * `_place_bet`.  A position on the same question under another tid, a
     * live entry without a client or a live order the venue refuses all
     * leave the ledger untouched.  `post` is the venue's order call and
     * `liveBalance` the balance read back after a live fill.
     */
    method PlaceBet(tid: string, coin: string, question: string, entryPrice: real, sizeUsdc: real,
                    fairProb: real, edge: real, endTime: real, side: string, marketId: string, strike: real,
                    now: real, hasClient: bool, post: ClientWrapper.OrderArgs -> Option<string>, liveBalance: real)
      requires Valid()
      modifies this
      ensures Valid()
      ensures Snapshot() == AfterBet(settings, old(Snapshot()), tid, coin, question, entryPrice, sizeUsdc, fairProb, edge,
                                     endTime, side, marketId, strike, now, hasClient, post, liveBalance)
    {
      var opposite := FindOpposite(tid, question);
      if opposite {
        return;
      }
      var size := EntrySize(sizeUsdc, bankroll);
      var price := ClientWrapper.SafeRound(entryPrice);
      var shares := size / price;
      if !settings.paperTrading {
        if !hasClient {
          return;
        }
        var placed := ClientWrapper.PlaceLimitOrder(false, true, tid, price, shares, "BUY", post);
        if !placed.Posted? {
          return;
        }
      }
      positions := positions[tid := Position(coin, question, price, size, shares, fairProb, edge, now, endTime, side,
                                             marketId, strike, 0.0, None)];
      order := Insert(order, tid);
      if settings.paperTrading {
        bankroll := bankroll - PaperDebit(size);
        stats := stats.(totalWagered := stats.totalWagered + size);
      } else if liveBalance > 0.0 {
        bankroll := liveBalance;
      }
      stats := stats.(totalBets := stats.totalBets + 1);
    }

    /** `_settle_as_win`. */
    method SettleAsWin(pos: Position)
      modifies this
      ensures Book(bankroll, stats) == SettleWin(old(Book(bankroll, stats)), pos, settings.paperTrading)
      ensures positions == old(positions) && order == old(order) && imbalanceTracker == old(imbalanceTracker)
    {
      var payout := pos.shares * 1.0;
      var fee := payout * FeeRate;
      var netPayout := payout - fee;
      var profit := netPayout - pos.sizeUsdc;
      if settings.paperTrading {
        bankroll := bankroll + netPayout;
      }
      stats := stats.(wins := stats.wins + 1, totalPnl := stats.totalPnl + profit);
      if bankroll > stats.peakBankroll {
        stats := stats.(peakBankroll := bankroll);
      }
    }

    /** `_settle_as_loss`; the equity counts every position still in the ledger. */
    method SettleAsLoss(pos: Position)
      requires Valid()
      modifies this
      ensures Book(bankroll, stats) == SettleLoss(old(Book(bankroll, stats)), pos, old(Invested(order, positions)))
      ensures positions == old(positions) && order == old(order) && imbalanceTracker == old(imbalanceTracker)
    {
      var loss := -pos.sizeUsdc;
      stats := stats.(losses := stats.losses + 1, totalPnl := stats.totalPnl + loss);
      var invested := SumStakes();
      var equity := bankroll + invested;
      var currentPeak := Max(stats.peakBankroll, equity);
      var dd := if currentPeak > 0.0 then 1.0 - equity / currentPeak else 0.0;
      if dd > stats.maxDrawdown {
        stats := stats.(maxDrawdown := dd);
      }
    }

    /** `sum(p['size_usdc'] for p in self.positions.values())`. */
    method SumStakes() returns (invested: real)
      requires Valid()
      ensures invested == Invested(order, positions)
    {
      invested := 0.0;
      var k := 0;
      while k < |order|
        invariant 0 <= k <= |order|
        invariant invested == Invested(order[..k], positions)
      {
        assert order[..k + 1][..k] == order[..k];
        invested := invested + positions[order[k]].sizeUsdc;
        k := k + 1;
      }
      assert order[..|order|] == order;
    }

    /**
     * `_settle_expired_positions`: one pass over the ledger in key order,
     * then the settled positions are removed.  `oracle` is the winner
     * look-up by market id for this pass.
     */
    method SettleExpiredPositions(now: real, oracle: string -> Option<string>)
      requires Valid()
      modifies this
      ensures Valid()
      ensures Snapshot() == Settled(settings, old(Snapshot()), now, oracle)
    {
      var toRemove := CheckExpired(now, oracle);
      RemoveSettled(toRemove);
    }

    /** The checking loop: due positions are stamped, decided ones booked and collected. */
    method CheckExpired(now: real, oracle: string -> Option<string>) returns (toRemove: seq<string>)
      requires Valid()
      modifies this
      ensures Valid() && order == old(order) && imbalanceTracker == old(imbalanceTracker)
      ensures Pass(positions, Book(bankroll, stats), toRemove) ==
                SettleFrom(old(order), Pass(old(positions), old(Book(bankroll, stats)), []),
                           settings.paperTrading, now, oracle, 0)
    {
      ghost var goal := SettleFrom(order, Pass(positions, Book(bankroll, stats), []), settings.paperTrading, now, oracle, 0);
      toRemove := [];
      var i := 0;
      while i < |order|
        invariant 0 <= i <= |order| && order == old(order) && Valid()
        invariant imbalanceTracker == old(imbalanceTracker)
        invariant goal == SettleFrom(order, Pass(positions, Book(bankroll, stats), toRemove), settings.paperTrading, now, oracle, i)
      {
        toRemove := CheckOne(order[i], now, oracle, toRemove);
        i := i + 1;
      }
    }

    /** One position of the checking loop. */
    method CheckOne(tid: string, now: real, oracle: string -> Option<string>, toRemove: seq<string>)
      returns (toRemove': seq<string>)
      requires Valid() && tid in positions
      modifies this
      ensures Valid() && order == old(order) && imbalanceTracker == old(imbalanceTracker)
      ensures Pass(positions, Book(bankroll, stats), toRemove') ==
                SettleOne(order, Pass(old(positions), old(Book(bankroll, stats)), toRemove), settings.paperTrading,
                          now, oracle, tid)
    {
      toRemove' := toRemove;
      var pos := positions[tid];
      if Due(pos, now) {
        positions := positions[tid := pos.(lastCheck := now)];
        var answer := oracle(pos.marketId);
        if Decided(answer) {
          if answer.value == pos.side {
            SettleAsWin(pos);
          } else {
            SettleAsLoss(pos);
          }
          toRemove' := toRemove + [tid];
        }
      }
    }

    /** `for tid in to_remove: self.positions.pop(tid, None)`. */
    method RemoveSettled(toRemove: seq<string>)
      requires Valid()
      modifies this
      ensures Valid()
      ensures positions == Without(old(positions), toRemove) && order == RemoveAll(old(order), toRemove)
      ensures bankroll == old(bankroll) && stats == old(stats) && imbalanceTracker == old(imbalanceTracker)
    {
      var k := 0;
      while k < |toRemove|
        invariant 0 <= k <= |toRemove| && Valid()
        invariant bankroll == old(bankroll) && stats == old(stats) && imbalanceTracker == old(imbalanceTracker)
        invariant positions == Without(old(positions), toRemove[..k])
        invariant RemoveAll(old(order), toRemove) == RemoveAll(order, toRemove[k..])
      {
        assert toRemove[k..][1..] == toRemove[k + 1..];
        assert toRemove[..k + 1] == toRemove[..k] + [toRemove[k]];
        WithoutStep(old(positions), toRemove[..k], toRemove[k]);
        positions := positions - {toRemove[k]};
        order := Remove(order, toRemove[k]);
        k := k + 1;
      }
      assert toRemove[..|toRemove|] == toRemove;
    }

    /** `_check_drawdown_halt`: reads the ledger and changes nothing. */
    method CheckDrawdownHalt() returns (halt: bool)
      requires Valid()
      ensures halt <==> HaltCondition(Equity(), stats.peakBankroll, initialBankroll)
    {
      var invested := SumStakes();
      var equity := bankroll + invested;
      if equity <= 0.0 {
        return true;
      }
      var currentPeak := Max(Max(stats.peakBankroll, equity), initialBankroll);
      var ddPct := 1.0 - equity / currentPeak;
      return ddPct >= DrawdownHaltPct;
    }

    /** The scan's refresh of held positions: a listed held tid takes the market's best bid as its price. */
    method RefreshHeldPrices(markets: seq<MarketData>)
      requires Valid()
      modifies this
      ensures Valid()
      ensures Snapshot() == old(Snapshot()).(positions := Refreshed(old(positions), markets))
    {
      var i := 0;
      while i < |markets|
        invariant 0 <= i <= |markets| && Valid()
        invariant Snapshot() == old(Snapshot()).(positions := Refreshed(old(positions), markets[..i]))
      {
        assert markets[..i + 1][..i] == markets[..i];
        var data := markets[i];
        if data.tid in positions {
          positions := positions[data.tid := positions[data.tid].(currentPrice := Some(BestBid(data.book)))];
        }
        i := i + 1;
      }
      assert markets[..|markets|] == markets;
    }

    /**
     * The entry loop of `run_ev_step`: picks are taken in coin order until
     * the position limit is reached.  The imbalance tracker is keyed on
     * `lastTid`, the tid of the last scanned market, for every pick.
     */
    method EnterPicks(coins: seq<string>, picks: map<string, Candidate>, lastTid: string, now: real,
                      hasClient: bool, post: ClientWrapper.OrderArgs -> Option<string>, liveBalance: real)
      requires Valid() && forall c :: c in coins ==> c in picks
      modifies this
      ensures Valid()
      ensures Snapshot() == EnterFrom(settings, old(Snapshot()), coins, picks, 0, lastTid, now, hasClient, post, liveBalance)
    {
      ghost var goal := EnterFrom(settings, Snapshot(), coins, picks, 0, lastTid, now, hasClient, post, liveBalance);
      var i := 0;
      while i < |coins| && |positions| < settings.maxConcurrentBets
        invariant 0 <= i <= |coins| && Valid()
        invariant goal == EnterFrom(settings, Snapshot(), coins, picks, i, lastTid, now, hasClient, post, liveBalance)
      {
        EnterOne(coins, picks, i, lastTid, now, hasClient, post, liveBalance);
        i := i + 1;
      }
      EnterFromStop(settings, Snapshot(), coins, picks, i, lastTid, now, hasClient, post, liveBalance);
    }

    /** The `i`-th pick of the entry loop, taken while the position limit is not reached. */
    method EnterOne(coins: seq<string>, picks: map<string, Candidate>, i: nat, lastTid: string, now: real,
                    hasClient: bool, post: ClientWrapper.OrderArgs -> Option<string>, liveBalance: real)
      requires Valid() && i < |coins| && |positions| < settings.maxConcurrentBets && forall c :: c in coins ==> c in picks
      modifies this
      ensures Valid()
      ensures Snapshot() == EnterStep(settings, old(Snapshot()), picks[coins[i]], lastTid, now, hasClient, post, liveBalance)
      ensures EnterFrom(settings, old(Snapshot()), coins, picks, i, lastTid, now, hasClient, post, liveBalance) ==
                EnterFrom(settings, Snapshot(), coins, picks, i + 1, lastTid, now, hasClient, post, liveBalance)
    {
      EnterFromNext(settings, Snapshot(), coins, picks, i, lastTid, now, hasClient, post, liveBalance);
      var pick := picks[coins[i]];
      imbalanceTracker := UpdateTracker(imbalanceTracker, lastTid, pick.orderImbalance, now);
      var firstSeen := if lastTid in imbalanceTracker then Some(imbalanceTracker[lastTid]) else None;
      var decision := EntryDecision(settings.strategyName, pick, firstSeen, now);
      if decision.Some? {
        var p := decision.value;
        var kelly := KellySizing.KellyBetSize(bankroll, p.prob, p.price, FeeRate, settings.kellyFraction,
                                              KellyMaxBetFraction, KellyMinBet);
        var betSize := StakeFor(kelly, bankroll, settings);
        if betSize >= settings.minBetUsdc {
          PlaceBet(p.tid, p.coin, p.question, p.price, betSize, p.prob, p.edge, p.endTime, p.side, p.marketId,
                   p.strike, now, hasClient, post, liveBalance);
        }
      }
    }

    /**
     * `run_ev_step` after the spot refresh: halt check, settlement, the
     * market scan with the analysis of `Analyse` over the feed's readings,
     * and the entries.  The scan's price refresh of held positions and its
     * pick loop touch disjoint state and are run one after the other.
     */
    method RunEvStep(markets: seq<MarketData>, now: real, oracle: string -> Option<string>, feed: FeedView,
                     volScale: real, tm: Math, hasClient: bool, post: ClientWrapper.OrderArgs -> Option<string>,
                     liveBalance: real)
      requires Valid()
      modifies this
      ensures Valid()
      ensures old(HaltCondition(Equity(), stats.peakBankroll, initialBankroll)) ==> Snapshot() == old(Snapshot())
      ensures !old(HaltCondition(Equity(), stats.peakBankroll, initialBankroll)) ==>
                Snapshot() == ScanAndEnter(settings, Settled(settings, old(Snapshot()), now, oracle), markets, now,
                                           AnalyseWith(now, feed, volScale, tm), hasClient, post, liveBalance)
    {
      var halt := CheckDrawdownHalt();
      if halt {
        return;
      }
      SettleExpiredPositions(now, oracle);
      ghost var settled := Snapshot();
      var held := positions.Keys;
      RefreshHeldPrices(markets);
      var analyse := AnalyseWith(now, feed, volScale, tm);
      var coins, picks, at := SelectBestPicks(markets, held, analyse);
      if |markets| > 0 {
        EnterPicks(coins, picks, markets[|markets| - 1].tid, now, hasClient, post, liveBalance);
      }
      assert Snapshot() == ScanAndEnter(settings, settled, markets, now, analyse, hasClient, post, liveBalance);
    }
  }
}
