// The Binance price feed: per-coin buffers of one-minute candles, a spot
// price cache, and the indicators computed from a buffer snapshot
// (nearest-candle lookup, realised and Parkinson volatility, drift, RSI,
// EMA) together with the trend/state classification fed to the
// probability adjustment.
module BinanceFeed {
  import opened Numerics
  import opened Wrappers

  datatype Candle = Candle(open: real, high: real, low: real, close: real, volume: real, closeTime: real)

  /** One row of the klines reply; its close time is in milliseconds. */
  datatype Kline = Kline(open: real, high: real, low: real, close: real, volume: real, closeTimeMs: real)

  datatype Trend = Bull | Bear | Neutral

  datatype MarketState = Overbought | Oversold | StrongTrendUp | StrongTrendDown | Normal

  /** The dictionary returned by `get_expert_signals`. */
  datatype ExpertSignals = ExpertSignals(rsi: real, trend: Trend, strength: real, state: MarketState, emaDiff: real)

  /** Capacity of each candle deque: two hours of one-minute candles. */
  const BufferCapacity: nat := 120
  const SpotCooldown: real := 1.0
  const CandleCooldown: real := 30.0
  /** Largest distance, in seconds, between a target time and a usable candle close. */
  const MaxLookupGap: real := 120.0
  /** 365.25 days of minutes, the annualisation factor of the one-minute statistics. */
  const MinutesPerYear: real := 525960.0

  const Coins: seq<string> := ["BTC", "ETH", "SOL"]
  const Symbols: map<string, string> := map["BTC" := "BTCUSDT", "ETH" := "ETHUSDT", "SOL" := "SOLUSDT"]

  function CandleOf(k: Kline): Candle
  {
    Candle(k.open, k.high, k.low, k.close, k.volume, k.closeTimeMs / 1000.0)
  }

  function Converted(ks: seq<Kline>): (cs: seq<Candle>)
    ensures |cs| == |ks|
  {
    seq(|ks|, i requires 0 <= i < |ks| => CandleOf(ks[i]))
  }

  /** The last `n` elements of `s` (all of it when it is shorter). */
  function LastN<T>(s: seq<T>, n: nat): (r: seq<T>)
    ensures |r| <= n && |r| <= |s|
    ensures r == s[|s| - |r|..]
    ensures |s| <= n ==> r == s
  {
    if |s| <= n then s else s[|s| - n..]
  }

  /**
   * Python's `s[-k:]`: the last k elements for k > 0; for k <= 0 the slice
   * starts at index -k, so `s[-0:]` is the whole sequence.
   */
  function PyTail<T>(s: seq<T>, k: int): (r: seq<T>)
    ensures |r| <= |s| && r == s[|s| - |r|..]
    ensures 0 < k <= |s| ==> |r| == k
    ensures k == 0 ==> r == s
  {
    if k > 0 then LastN(s, k)
    else if -k >= |s| then []
    else s[-k..]
  }

  /** `deque.append` on a deque with `maxlen = cap`: a full deque drops its oldest element. */
  function DequeAppend<T>(buf: seq<T>, x: T, cap: nat): seq<T>
    requires 1 <= cap && |buf| <= cap
  {
    if |buf| < cap then buf + [x] else buf[1..] + [x]
  }

  /** The klines appended one by one to an empty deque of capacity 120: the last 120 candles. */
  method BufferOf(raw: seq<Kline>) returns (buf: seq<Candle>)
    ensures buf == LastN(Converted(raw), BufferCapacity)
  {
    buf := [];
    var i := 0;
    while i < |raw|
      invariant 0 <= i <= |raw|
      invariant buf == LastN(Converted(raw[..i]), BufferCapacity)
    {
      DequeAppendKeepsLast(Converted(raw[..i]), CandleOf(raw[i]), BufferCapacity);
      assert Converted(raw[..i + 1]) == Converted(raw[..i]) + [CandleOf(raw[i])];
      buf := DequeAppend(buf, CandleOf(raw[i]), BufferCapacity);
      i := i + 1;
    }
    assert raw[..|raw|] == raw;
  }

  /** Appending to a bounded deque keeps exactly the last `cap` elements appended so far. */
  lemma {:induction false} DequeAppendKeepsLast<T>(s: seq<T>, x: T, cap: nat)
    requires cap >= 1
    ensures DequeAppend(LastN(s, cap), x, cap) == LastN(s + [x], cap)
  {
    if |s| >= cap {
      assert LastN(s, cap)[1..] + [x] == (s + [x])[|s| + 1 - cap..];
    }
  }

  function LastFetch(fetched: map<string, real>, coin: string): real
  {
    if coin in fetched then fetched[coin] else 0.0
  }

  /** The spot prices a ticker reply provides for the listed coins. */
  function SpotPrices(coins: seq<string>, data: map<string, real>): map<string, real>
  {
    if |coins| == 0 then map[]
    else
      var rest := SpotPrices(coins[..|coins| - 1], data);
      var coin := coins[|coins| - 1];
      if coin in Symbols && Symbols[coin] in data then rest[coin := data[Symbols[coin]]] else rest
  }

  /** Overwriting one key after a merge is merging the overwritten map. */
  lemma MergeUpdate<K(!new), V(!new)>(a: map<K, V>, b: map<K, V>, k: K, v: V)
    ensures a + b[k := v] == (a + b)[k := v]
  {
  }

  /** A ticker reply updates exactly the listed coins whose symbol it quotes, to the quoted price. */
  lemma {:induction false} SpotPricesQuoted(coins: seq<string>, data: map<string, real>)
    ensures forall coin :: coin in SpotPrices(coins, data) <==> coin in coins && coin in Symbols && Symbols[coin] in data
    ensures forall coin :: coin in SpotPrices(coins, data) ==> SpotPrices(coins, data)[coin] == data[Symbols[coin]]
  {
    if |coins| > 0 {
      SpotPricesQuoted(coins[..|coins| - 1], data);
      assert coins == coins[..|coins| - 1] + [coins[|coins| - 1]];
    }
  }

  lemma CoinsAreSymbols()
    ensures forall coin :: coin in Coins <==> coin in Symbols
  {
    assert Symbols.Keys == {"BTC", "ETH", "SOL"};
  }

  /** Whether `fetch_spot_prices` refreshes: outside the one-second cooldown, with a reply. */
  predicate SpotRefreshes(last: real, now: real, reply: Option<map<string, real>>)
  {
    now - last >= SpotCooldown && reply.Some?
  }

  /** The spot cache after `fetch_spot_prices`. */
  function SpotFetched(cache: map<string, real>, last: real, now: real, reply: Option<map<string, real>>): map<string, real>
  {
    if SpotRefreshes(last, now, reply) then cache + SpotPrices(Coins, reply.value) else cache
  }

  /** The spot fetch time after `fetch_spot_prices`. */
  function SpotStamp(last: real, now: real, reply: Option<map<string, real>>): real
  {
    if SpotRefreshes(last, now, reply) then now else last
  }

  /** `self.spot_cache.get(coin, 0.0)`. */
  function SpotQuote(cache: map<string, real>, coin: string): real
  {
    if coin in cache then cache[coin] else 0.0
  }

  /** A second spot refresh at the same instant, with the same reply, changes nothing. */
  lemma SpotFetchedOnce(cache: map<string, real>, last: real, now: real, reply: Option<map<string, real>>)
    ensures var cache' := SpotFetched(cache, last, now, reply);
            var last' := SpotStamp(last, now, reply);
            SpotFetched(cache', last', now, reply) == cache' && SpotStamp(last', now, reply) == last'
  {
  }

  /**
   * Whether `ensure_candles` fetches: the buffer is short, the coin is
   * outside its 30-second cooldown and tracked, and the request answers.
   */
  predicate Fetches(buf: seq<Candle>, last: real, coin: string, minCount: int, now: real, reply: Option<seq<Kline>>)
  {
    |buf| < minCount && now - last >= CandleCooldown && coin in Symbols && reply.Some?
  }

  /** The coin's buffer after `ensure_candles`. */
  function Ensured(buf: seq<Candle>, last: real, coin: string, minCount: int, now: real,
                   reply: Option<seq<Kline>>): seq<Candle>
  {
    if Fetches(buf, last, coin, minCount, now, reply) then LastN(Converted(reply.value), BufferCapacity) else buf
  }

  /**
   * Topping a buffer up twice at the same instant fetches at most once: the
   * second call finds the buffer full enough, the coin in its cooldown, or
   * the same reason not to fetch as the first.
   */
  lemma EnsuredOnce(buf: seq<Candle>, last: real, coin: string, minCount: int, now: real, reply: Option<seq<Kline>>)
    ensures var last' := if Fetches(buf, last, coin, minCount, now, reply) then now else last;
            !Fetches(Ensured(buf, last, coin, minCount, now, reply), last', coin, minCount, now, reply)
  {
  }

  class BinancePriceFeed {
    var candles: map<string, seq<Candle>>
    var spotCache: map<string, real>
    var spotLastFetch: real
    var candleLastFetch: map<string, real>

    /** One bounded buffer per known coin. */
    ghost predicate Valid()
      reads this
    {
      candles.Keys == Symbols.Keys &&
      forall coin :: coin in candles ==> |candles[coin]| <= BufferCapacity
    }

    constructor ()
      ensures Valid()
      ensures candles == map coin | coin in Symbols :: []
      ensures spotCache == map[] && spotLastFetch == 0.0
      ensures candleLastFetch == map coin | coin in Symbols :: 0.0
    {
      candles := map coin | coin in Symbols :: [];
      spotCache := map[];
      spotLastFetch := 0.0;
      candleLastFetch := map coin | coin in Symbols :: 0.0;
    }

    /** `list(self.candles.get(coin, []))`. */
    function Snapshot(coin: string): seq<Candle>
      reads this
    {
      if coin in candles then candles[coin] else []
    }

    /**
     * `fetch_spot_prices`: at most once a second, a successful ticker reply
     * overwrites the cached price of each coin it lists; a failed request
     * (None) keeps the cache.
     */
    method FetchSpotPrices(now: real, reply: Option<map<string, real>>)
      modifies this
      ensures candles == old(candles) && candleLastFetch == old(candleLastFetch)
      ensures now - old(spotLastFetch) < SpotCooldown || reply.None? ==>
                spotCache == old(spotCache) && spotLastFetch == old(spotLastFetch)
      ensures now - old(spotLastFetch) >= SpotCooldown && reply.Some? ==>
                spotCache == old(spotCache) + SpotPrices(Coins, reply.value) && spotLastFetch == now
      ensures spotCache == SpotFetched(old(spotCache), old(spotLastFetch), now, reply)
      ensures spotLastFetch == SpotStamp(old(spotLastFetch), now, reply)
    {
      if now - spotLastFetch < SpotCooldown {
        return;
      }
      if reply.None? {
        return;
      }
      var data := reply.value;
      var i := 0;
      while i < |Coins|
        invariant 0 <= i <= |Coins|
        invariant spotCache == old(spotCache) + SpotPrices(Coins[..i], data)
        invariant candles == old(candles) && candleLastFetch == old(candleLastFetch)
        invariant spotLastFetch == old(spotLastFetch)
      {
        var coin := Coins[i];
        assert Coins[..i + 1][..i] == Coins[..i];
        if Symbols[coin] in data {
          MergeUpdate(old(spotCache), SpotPrices(Coins[..i], data), coin, data[Symbols[coin]]);
          spotCache := spotCache[coin := data[Symbols[coin]]];
        }
        i := i + 1;
      }
      assert Coins[..|Coins|] == Coins;
      spotLastFetch := now;
    }

    /** `get_spot_price`: refresh, then the cached price or 0.0. */
    method GetSpotPrice(coin: string, now: real, reply: Option<map<string, real>>) returns (price: real)
      modifies this
      ensures candles == old(candles) && candleLastFetch == old(candleLastFetch)
      ensures spotCache == SpotFetched(old(spotCache), old(spotLastFetch), now, reply)
      ensures spotLastFetch == SpotStamp(old(spotLastFetch), now, reply)
      ensures price == SpotQuote(spotCache, coin)
      ensures now - old(spotLastFetch) >= SpotCooldown && reply.Some? && coin in Symbols && Symbols[coin] in reply.value ==>
                price == reply.value[Symbols[coin]]
      ensures (now - old(spotLastFetch) < SpotCooldown || reply.None?) ==>
                price == (if coin in old(spotCache) then old(spotCache)[coin] else 0.0)
    {
      FetchSpotPrices(now, reply);
      if reply.Some? {
        SpotPricesQuoted(Coins, reply.value);
        CoinsAreSymbols();
      }
      price := if coin in spotCache then spotCache[coin] else 0.0;
    }

    /**
     * `fetch_candles`: at most every 30 seconds per coin, a successful klines
     * reply for a known coin replaces that coin's buffer by the last 120
     * candles of the reply; anything else leaves the feed unchanged.
     */
    method FetchCandles(coin: string, now: real, reply: Option<seq<Kline>>)
      requires Valid()
      modifies this
      ensures Valid()
      ensures spotCache == old(spotCache) && spotLastFetch == old(spotLastFetch)
      ensures now - LastFetch(old(candleLastFetch), coin) >= CandleCooldown && coin in Symbols && reply.Some? ==>
                candles == old(candles)[coin := LastN(Converted(reply.value), BufferCapacity)] &&
                candleLastFetch == old(candleLastFetch)[coin := now]
      ensures !(now - LastFetch(old(candleLastFetch), coin) >= CandleCooldown && coin in Symbols && reply.Some?) ==>
                candles == old(candles) && candleLastFetch == old(candleLastFetch)
    {
      if now - LastFetch(candleLastFetch, coin) < CandleCooldown {
        return;
      }
      if coin !in Symbols {
        return;
      }
      if reply.None? {
        return;
      }
      var buf := BufferOf(reply.value);
      candles := candles[coin := buf];
      candleLastFetch := candleLastFetch[coin := now];
    }

    /** `ensure_candles`: fetch only when the buffer holds fewer than `minCount` candles. */
    method EnsureCandles(coin: string, minCount: int, now: real, reply: Option<seq<Kline>>)
      requires Valid()
      modifies this
      ensures Valid()
      ensures |old(Snapshot(coin))| >= minCount ==> candles == old(candles) && candleLastFetch == old(candleLastFetch)
      ensures spotCache == old(spotCache) && spotLastFetch == old(spotLastFetch)
      ensures forall other :: other != coin ==> Snapshot(other) == old(Snapshot(other))
      ensures Snapshot(coin) == Ensured(old(Snapshot(coin)), LastFetch(old(candleLastFetch), coin), coin, minCount, now, reply)
      ensures LastFetch(candleLastFetch, coin) ==
                if Fetches(old(Snapshot(coin)), LastFetch(old(candleLastFetch), coin), coin, minCount, now, reply)
                then now else LastFetch(old(candleLastFetch), coin)
    {
      if |Snapshot(coin)| < minCount {
        FetchCandles(coin, now, reply);
      }
    }

    /** `get_hf_volatility`: top up the buffer to `window` candles, then measure the snapshot. */
    method GetHfVolatility(coin: string, window: int, now: real, reply: Option<seq<Kline>>, m: Transcendentals)
      returns (vol: real)
      requires Valid()
      modifies this
      ensures Valid() && spotCache == old(spotCache) && spotLastFetch == old(spotLastFetch)
      ensures |Snapshot(coin)| < 3 ==> vol == 1.0
      ensures Snapshot(coin) == Ensured(old(Snapshot(coin)), LastFetch(old(candleLastFetch), coin), coin, window, now, reply)
      ensures LastFetch(candleLastFetch, coin) ==
                if Fetches(old(Snapshot(coin)), LastFetch(old(candleLastFetch), coin), coin, window, now, reply)
                then now else LastFetch(old(candleLastFetch), coin)
      ensures vol == HfVolatility(Snapshot(coin), window, m)
    {
      EnsureCandles(coin, window, now, reply);
      var snapshot := Snapshot(coin);
      if |snapshot| < 3 {
        return 1.0;
      }
      var recent := PyTail(snapshot, window);
      var logReturns := CollectLogReturns(recent, m.ln);
      if |logReturns| < 2 {
        return 1.0;
      }
      var variance := SampleVariance(logReturns);
      vol := Annualised(variance, m);
    }

    /** `get_parkinson_vol`: top up the buffer, then measure the snapshot. */
    method GetParkinsonVol(coin: string, window: int, now: real, reply: Option<seq<Kline>>, m: Transcendentals)
      returns (vol: real)
      requires Valid() && m.ln(2.0) > 0.0
      modifies this
      ensures Valid() && spotCache == old(spotCache) && spotLastFetch == old(spotLastFetch)
      ensures |Snapshot(coin)| < 3 ==> vol == 1.0
      ensures Snapshot(coin) == Ensured(old(Snapshot(coin)), LastFetch(old(candleLastFetch), coin), coin, window, now, reply)
      ensures vol == ParkinsonVol(Snapshot(coin), window, m)
    {
      EnsureCandles(coin, window, now, reply);
      var snapshot := Snapshot(coin);
      if |snapshot| < 3 {
        return 1.0;
      }
      var recent := PyTail(snapshot, window);
      var hlSqSum, valid := SumParkinsonTerms(recent, m.ln);
      if valid < 2 {
        return 1.0;
      }
      var sigmaSq := ParkinsonVariance(hlSqSum, valid, m.ln(2.0));
      vol := Annualised(sigmaSq, m);
    }

    /** `get_blended_volatility`: the mean of the two estimates. */
    method GetBlendedVolatility(coin: string, window: int, now: real, reply: Option<seq<Kline>>, m: Transcendentals)
      returns (vol: real)
      requires Valid() && m.ln(2.0) > 0.0
      modifies this
      ensures Valid() && spotCache == old(spotCache) && spotLastFetch == old(spotLastFetch)
      ensures var buf := Ensured(old(Snapshot(coin)), LastFetch(old(candleLastFetch), coin), coin, window, now, reply);
              vol == BlendedVolatility(HfVolatility(buf, window, m), ParkinsonVol(buf, window, m))
    {
      EnsuredOnce(Snapshot(coin), LastFetch(candleLastFetch, coin), coin, window, now, reply);
      var volLogReturn := GetHfVolatility(coin, window, now, reply, m);
      var volParkinson := GetParkinsonVol(coin, window, now, reply, m);
      vol := BlendedVolatility(volLogReturn, volParkinson);
    }

    /** `get_drift`: top up the buffer, then the annualised mean log return of the snapshot. */
    method GetDrift(coin: string, window: int, now: real, reply: Option<seq<Kline>>, m: Transcendentals)
      returns (drift: real)
      requires Valid()
      modifies this
      ensures Valid() && spotCache == old(spotCache) && spotLastFetch == old(spotLastFetch)
      ensures |Snapshot(coin)| < 3 ==> drift == 0.0
      ensures Snapshot(coin) == Ensured(old(Snapshot(coin)), LastFetch(old(candleLastFetch), coin), coin, window, now, reply)
      ensures drift == Drift(Snapshot(coin), window, m)
    {
      EnsureCandles(coin, window, now, reply);
      var snapshot := Snapshot(coin);
      if |snapshot| < 3 {
        return 0.0;
      }
      var recent := PyTail(snapshot, window);
      var logReturns := CollectLogReturns(recent, m.ln);
      if |logReturns| == 0 {
        return 0.0;
      }
      var mean := Sum(logReturns) / |logReturns| as real;
      drift := mean * MinutesPerYear;
    }

    /** `get_ema`: the spot price on a buffer shorter than `period`, otherwise the EMA of the closes. */
    method GetEma(coin: string, period: nat, now: real, spotReply: Option<map<string, real>>) returns (ema: real)
      requires Valid() && period >= 1
      modifies this
      ensures Valid() && candles == old(candles) && candleLastFetch == old(candleLastFetch)
      ensures |Snapshot(coin)| < period ==> ema == (if coin in spotCache then spotCache[coin] else 0.0)
      ensures |Snapshot(coin)| >= period ==>
                ema == EmaFold(Closes(Snapshot(coin))[|Snapshot(coin)| - period], PyTail(Closes(Snapshot(coin)), period - 1), Alpha(period))
      ensures ema == Ema(Snapshot(coin), period, SpotQuote(SpotFetched(old(spotCache), old(spotLastFetch), now, spotReply), coin))
      ensures |Snapshot(coin)| >= period ==> spotCache == old(spotCache) && spotLastFetch == old(spotLastFetch)
      ensures |Snapshot(coin)| < period ==>
                spotCache == SpotFetched(old(spotCache), old(spotLastFetch), now, spotReply) &&
                spotLastFetch == SpotStamp(old(spotLastFetch), now, spotReply)
    {
      var snapshot := Snapshot(coin);
      if |snapshot| < period {
        ema := GetSpotPrice(coin, now, spotReply);
      } else {
        ema := EmaOf(Closes(snapshot), period);
      }
    }

    /**
     * `get_expert_signals`: RSI(14) of the current buffer, EMA(10) and
     * EMA(20), the spot price and the drift, classified.  None stands for
     * the ZeroDivisionError when EMA(20) is 0.
     */
    method GetExpertSignals(coin: string, now: real, spotReply: Option<map<string, real>>,
                            candleReply: Option<seq<Kline>>, m: Transcendentals)
      returns (r: Option<ExpertSignals>)
      requires Valid()
      modifies this
      ensures Valid()
      ensures r.Some? ==> r.value.state == StateOf(Rsi(old(Snapshot(coin)), 14)) && 0.0 <= r.value.rsi <= 100.0
      ensures r == ExpertSignalsOf(old(Snapshot(coin)), LastFetch(old(candleLastFetch), coin), old(spotCache),
                                   old(spotLastFetch), coin, now, spotReply, candleReply, m)
    {
      var snapshot := Snapshot(coin);
      var rsi := Rsi(snapshot, 14);
      SpotFetchedOnce(spotCache, spotLastFetch, now, spotReply);
      var ema10 := GetEma(coin, 10, now, spotReply);
      var ema20 := GetEma(coin, 20, now, spotReply);
      var spot := GetSpotPrice(coin, now, spotReply);
      var drift := GetDrift(coin, 10, now, candleReply, m);
      r := ExpertSignalsFrom(rsi, ema10, ema20, spot, drift);
      ReportedRsiInRange(snapshot, ema10, ema20, spot, drift);
    }
  }

  // ---------------------------------------------------------------------
  // Indicators over a buffer snapshot.

  function CloseDistance(c: Candle, target: real): real
  {
    Abs(c.closeTime - target)
  }

  /**
   * Candle k is the one `get_price_at_time` picks: within the two-minute
   * gap, strictly closer than every earlier candle and no farther than any
   * later one.
   */
  ghost predicate FirstNearest(cs: seq<Candle>, target: real, k: int)
  {
    0 <= k < |cs| && CloseDistance(cs[k], target) < MaxLookupGap &&
    (forall j :: 0 <= j < k ==> CloseDistance(cs[j], target) > CloseDistance(cs[k], target)) &&
    (forall j :: k < j < |cs| ==> CloseDistance(cs[j], target) >= CloseDistance(cs[k], target))
  }

  /** `get_price_at_time`: the close of the first nearest candle, or 0.0 when none is within two minutes. */
  method PriceAtTime(cs: seq<Candle>, target: real) returns (price: real)
    ensures (forall j :: 0 <= j < |cs| ==> CloseDistance(cs[j], target) >= MaxLookupGap) ==> price == 0.0
    ensures (exists j :: 0 <= j < |cs| && CloseDistance(cs[j], target) < MaxLookupGap) ==>
              exists k :: FirstNearest(cs, target, k) && price == cs[k].close
  {
    if |cs| == 0 {
      return 0.0;
    }
    price := 0.0;
    var minDiff := MaxLookupGap;
    ghost var best := -1;
    var i := 0;
    while i < |cs|
      invariant 0 <= i <= |cs|
      invariant -1 <= best < i
      invariant best == -1 ==> price == 0.0 && minDiff == MaxLookupGap &&
                               forall j :: 0 <= j < i ==> CloseDistance(cs[j], target) >= MaxLookupGap
      invariant best >= 0 ==> price == cs[best].close && minDiff == CloseDistance(cs[best], target) < MaxLookupGap
      invariant best >= 0 ==> forall j :: 0 <= j < best ==> CloseDistance(cs[j], target) > minDiff
      invariant best >= 0 ==> forall j :: best < j < i ==> CloseDistance(cs[j], target) >= minDiff
    {
      var diff := CloseDistance(cs[i], target);
      if diff < minDiff {
        minDiff := diff;
        price := cs[i].close;
        best := i;
      }
      i := i + 1;
    }
    if best >= 0 {
      assert FirstNearest(cs, target, best);
    }
  }

  /** The log returns of consecutive candles whose closes are both positive. */
  function LogReturns(recent: seq<Candle>, ln: real -> real): seq<real>
  {
    if |recent| < 2 then []
    else
      var prev := recent[|recent| - 2].close;
      var curr := recent[|recent| - 1].close;
      LogReturns(recent[..|recent| - 1], ln) + (if prev > 0.0 && curr > 0.0 then [ln(curr / prev)] else [])
  }

  /** At most one return per consecutive pair, and exactly one when every close is positive. */
  lemma {:induction false} LogReturnsCount(recent: seq<Candle>, ln: real -> real)
    requires |recent| >= 1
    ensures |LogReturns(recent, ln)| <= |recent| - 1
    ensures (forall i :: 0 <= i < |recent| ==> recent[i].close > 0.0) ==> |LogReturns(recent, ln)| == |recent| - 1
  {
    if |recent| >= 2 {
      LogReturnsCount(recent[..|recent| - 1], ln);
    }
  }

  /** The return-collecting loop shared by `get_hf_volatility` and `get_drift`. */
  method CollectLogReturns(recent: seq<Candle>, ln: real -> real) returns (logReturns: seq<real>)
    ensures logReturns == LogReturns(recent, ln)
  {
    logReturns := [];
    if |recent| < 2 {
      return;
    }
    var i := 1;
    while i < |recent|
      invariant 1 <= i <= |recent|
      invariant logReturns == LogReturns(recent[..i], ln)
    {
      var prev := recent[i - 1].close;
      var curr := recent[i].close;
      assert recent[..i + 1][..i] == recent[..i];
      if prev > 0.0 && curr > 0.0 {
        logReturns := logReturns + [ln(curr / prev)];
      }
      i := i + 1;
    }
    assert recent[..|recent|] == recent;
  }

  function SquaredDeviations(xs: seq<real>, mean: real): (r: seq<real>)
    ensures |r| == |xs|
  {
    seq(|xs|, i requires 0 <= i < |xs| => (xs[i] - mean) * (xs[i] - mean))
  }

  /** Sample variance, divided by n - 1. */
  function SampleVariance(xs: seq<real>): real
    requires |xs| >= 2
  {
    Sum(SquaredDeviations(xs, Sum(xs) / |xs| as real)) / (|xs| as real - 1.0)
  }

  /** A sample variance is never negative, so its square root is defined. */
  lemma {:induction false} SampleVarianceNonNegative(xs: seq<real>)
    requires |xs| >= 2
    ensures SampleVariance(xs) >= 0.0
  {
    var mean := Sum(xs) / |xs| as real;
    var d := SquaredDeviations(xs, mean);
    forall i | 0 <= i < |d|
      ensures d[i] >= 0.0
    {
      SquareNonNegative(xs[i] - mean);
    }
  }

  /** A one-minute variance as an annual volatility: sqrt(variance) * sqrt(525960). */
  function Annualised(variance: real, m: Transcendentals): real
  {
    m.sqrt(variance) * m.sqrt(MinutesPerYear)
  }

  /**
   * `get_hf_volatility` on a snapshot: 1.0 for fewer than 3 candles or
   * fewer than 2 usable returns over the last `window` candles; otherwise
   * the annualised sample standard deviation of those returns, whose
   * variance is never negative.
   */
  function HfVolatility(cs: seq<Candle>, window: int, m: Transcendentals): (vol: real)
    ensures |cs| < 3 || |LogReturns(PyTail(cs, window), m.ln)| < 2 ==> vol == 1.0
    ensures |cs| >= 3 && |LogReturns(PyTail(cs, window), m.ln)| >= 2 ==>
              SampleVariance(LogReturns(PyTail(cs, window), m.ln)) >= 0.0 &&
              vol == Annualised(SampleVariance(LogReturns(PyTail(cs, window), m.ln)), m)
  {
    var lr := LogReturns(PyTail(cs, window), m.ln);
    if |cs| < 3 || |lr| < 2 then 1.0
    else
      SampleVarianceNonNegative(lr);
      Annualised(SampleVariance(lr), m)
  }

  /** A candle's range counts when 0 < low <= high. */
  predicate ValidRange(c: Candle)
  {
    c.high > 0.0 && c.low > 0.0 && c.high >= c.low
  }

  function Square(x: real): (r: real)
    ensures r >= 0.0
  {
    SquareNonNegative(x);
    x * x
  }

  /** The squared log range of each candle with a valid range. */
  function ParkinsonTerms(recent: seq<Candle>, ln: real -> real): seq<real>
  {
    if |recent| == 0 then []
    else
      var c := recent[|recent| - 1];
      ParkinsonTerms(recent[..|recent| - 1], ln) + (if ValidRange(c) then [Square(ln(c.high / c.low))] else [])
  }

  /** One term per candle with a valid range, each of them a square. */
  lemma {:induction false} ParkinsonTermsShape(recent: seq<Candle>, ln: real -> real)
    ensures |ParkinsonTerms(recent, ln)| <= |recent|
    ensures forall i :: 0 <= i < |ParkinsonTerms(recent, ln)| ==> ParkinsonTerms(recent, ln)[i] >= 0.0
  {
    if |recent| > 0 {
      ParkinsonTermsShape(recent[..|recent| - 1], ln);
    }
  }

  /**
   * `get_parkinson_vol` on a snapshot: 1.0 for fewer than 3 candles or
   * fewer than 2 valid high/low pairs; otherwise the annualised
   * sqrt(sum / (4 n ln 2)) of a non-negative sum.
   */
  function ParkinsonVol(cs: seq<Candle>, window: int, m: Transcendentals): (vol: real)
    requires m.ln(2.0) > 0.0
    ensures |cs| < 3 || |ParkinsonTerms(PyTail(cs, window), m.ln)| < 2 ==> vol == 1.0
    ensures |cs| >= 3 && |ParkinsonTerms(PyTail(cs, window), m.ln)| >= 2 ==>
              Sum(ParkinsonTerms(PyTail(cs, window), m.ln)) >= 0.0 &&
              vol == Annualised(ParkinsonVariance(Sum(ParkinsonTerms(PyTail(cs, window), m.ln)),
                                                  |ParkinsonTerms(PyTail(cs, window), m.ln)|, m.ln(2.0)), m)
  {
    var ts := ParkinsonTerms(PyTail(cs, window), m.ln);
    if |cs| < 3 || |ts| < 2 then 1.0
    else
      ParkinsonTermsShape(PyTail(cs, window), m.ln);
      Annualised(ParkinsonVariance(Sum(ts), |ts|, m.ln(2.0)), m)
  }

  /** The one-minute Parkinson variance: sum / (4 n ln 2), non-negative for a non-negative sum. */
  function ParkinsonVariance(hlSqSum: real, valid: nat, ln2: real): (v: real)
    requires valid >= 1 && ln2 > 0.0
    ensures hlSqSum >= 0.0 ==> v >= 0.0
  {
    DenominatorPositive(valid as real, ln2);
    hlSqSum / (4.0 * valid as real * ln2)
  }

  lemma DenominatorPositive(count: real, ln2: real)
    requires count >= 1.0 && ln2 > 0.0
    ensures 4.0 * count * ln2 > 0.0
  {
    MulPositive(4.0 * count, ln2);
  }

  /** The accumulation loop of `get_parkinson_vol`. */
  method SumParkinsonTerms(recent: seq<Candle>, ln: real -> real) returns (hlSqSum: real, valid: nat)
    ensures hlSqSum == Sum(ParkinsonTerms(recent, ln)) && valid == |ParkinsonTerms(recent, ln)|
  {
    hlSqSum := 0.0;
    valid := 0;
    var i := 0;
    while i < |recent|
      invariant 0 <= i <= |recent|
      invariant hlSqSum == Sum(ParkinsonTerms(recent[..i], ln))
      invariant valid == |ParkinsonTerms(recent[..i], ln)|
    {
      var c := recent[i];
      assert recent[..i + 1][..i] == recent[..i];
      if c.high > 0.0 && c.low > 0.0 && c.high >= c.low {
        var r := ln(c.high / c.low);
        assert ParkinsonTerms(recent[..i + 1], ln) == ParkinsonTerms(recent[..i], ln) + [Square(r)];
        SumAppend(ParkinsonTerms(recent[..i], ln), Square(r));
        hlSqSum := hlSqSum + Square(r);
        valid := valid + 1;
      } else {
        assert ParkinsonTerms(recent[..i + 1], ln) == ParkinsonTerms(recent[..i], ln);
      }
      i := i + 1;
    }
    assert recent[..|recent|] == recent;
  }

  /** `get_blended_volatility`: the 50:50 blend lies between the two estimates. */
  function BlendedVolatility(volLogReturn: real, volParkinson: real): (r: real)
    ensures Min(volLogReturn, volParkinson) <= r <= Max(volLogReturn, volParkinson)
    ensures volLogReturn == volParkinson ==> r == volLogReturn
  {
    (volLogReturn + volParkinson) / 2.0
  }

  /**
   * `get_drift` on a snapshot: 0.0 for fewer than 3 candles or no usable
   * return; otherwise the annualised mean log return, whose sign is the
   * sign of the summed returns.
   */
  function Drift(cs: seq<Candle>, window: int, m: Transcendentals): (drift: real)
    ensures |cs| < 3 || |LogReturns(PyTail(cs, window), m.ln)| == 0 ==> drift == 0.0
    ensures |cs| >= 3 && |LogReturns(PyTail(cs, window), m.ln)| > 0 ==>
              drift == Sum(LogReturns(PyTail(cs, window), m.ln)) / |LogReturns(PyTail(cs, window), m.ln)| as real * MinutesPerYear
    ensures drift > 0.0 <==> |cs| >= 3 && Sum(LogReturns(PyTail(cs, window), m.ln)) > 0.0
  {
    var lr := LogReturns(PyTail(cs, window), m.ln);
    if |cs| < 3 || |lr| == 0 then
      assert |lr| == 0 ==> Sum(lr) == 0.0;
      0.0
    else
      SignOfMean(Sum(lr), |lr| as real);
      Sum(lr) / |lr| as real * MinutesPerYear
  }

  lemma SignOfMean(total: real, n: real)
    requires n > 0.0
    ensures total / n * MinutesPerYear > 0.0 <==> total > 0.0
  {
    if total <= 0.0 {
      DivLeft(total, 0.0, n);
      MulLeft(total / n, 0.0, MinutesPerYear);
    }
  }

  function Closes(cs: seq<Candle>): (r: seq<real>)
    ensures |r| == |cs|
  {
    seq(|cs|, i requires 0 <= i < |cs| => cs[i].close)
  }

  function Deltas(xs: seq<real>): (r: seq<real>)
    ensures |r| == if |xs| == 0 then 0 else |xs| - 1
  {
    if |xs| == 0 then [] else seq(|xs| - 1, i requires 0 <= i < |xs| - 1 => xs[i + 1] - xs[i])
  }

  function Gains(ds: seq<real>): (r: seq<real>)
    ensures |r| == |ds|
  {
    seq(|ds|, i requires 0 <= i < |ds| => if ds[i] > 0.0 then ds[i] else 0.0)
  }

  function Losses(ds: seq<real>): (r: seq<real>)
    ensures |r| == |ds|
  {
    seq(|ds|, i requires 0 <= i < |ds| => if ds[i] < 0.0 then -ds[i] else 0.0)
  }

  /** The price changes `get_rsi` averages: the last `period` of them. */
  function RsiWindow(cs: seq<Candle>, period: nat): seq<real>
  {
    PyTail(Deltas(Closes(cs)), period)
  }

  /** `get_rsi` on a snapshot (`period` >= 1). */
  function Rsi(cs: seq<Candle>, period: nat): real
    requires period >= 1
  {
    if |cs| < period + 1 then 50.0 else RsiOfWindow(RsiWindow(cs, period), period)
  }

  /** 100 - 100 / (1 + rs) over the average gain and loss of a window, 100 without losses. */
  function RsiOfWindow(ds: seq<real>, period: nat): real
    requires period >= 1
  {
    var avgGain := Sum(Gains(ds)) / period as real;
    var avgLoss := Sum(Losses(ds)) / period as real;
    if avgLoss == 0.0 then 100.0
    else 100.0 - 100.0 / (1.0 + avgGain / avgLoss)
  }

  /** The RSI is an index in [0, 100]. */
  lemma {:induction false} RsiInRange(cs: seq<Candle>, period: nat)
    requires period >= 1
    ensures 0.0 <= Rsi(cs, period) <= 100.0
  {
    if |cs| >= period + 1 {
      RsiOfWindowInRange(RsiWindow(cs, period), period);
    }
  }

  lemma RsiOfWindowInRange(ds: seq<real>, period: nat)
    requires period >= 1
    ensures 0.0 <= RsiOfWindow(ds, period) <= 100.0
  {
    var p := period as real;
    var avgGain := Sum(Gains(ds)) / p;
    var avgLoss := Sum(Losses(ds)) / p;
    if avgLoss != 0.0 {
      RsiFormulaInRange(avgGain, avgLoss);
    }
  }

  lemma RsiFormulaInRange(avgGain: real, avgLoss: real)
    requires avgGain >= 0.0 && avgLoss > 0.0
    ensures 0.0 <= 100.0 - 100.0 / (1.0 + avgGain / avgLoss) <= 100.0
  {
    var rs := avgGain / avgLoss;
    assert rs >= 0.0;
    assert 100.0 / (1.0 + rs) <= 100.0;
  }

  /** With no falling close in the window the RSI is 100. */
  lemma {:induction false} RsiWithoutLosses(ds: seq<real>, period: nat)
    requires period >= 1
    requires forall i :: 0 <= i < |ds| ==> ds[i] >= 0.0
    ensures RsiOfWindow(ds, period) == 100.0
  {
    assert Losses(ds) == seq(|ds|, i => 0.0);
    SumOfZeros(|ds|);
  }

  /** With only falling closes in a non-empty window the RSI is 0. */
  lemma {:induction false} RsiWithoutGains(ds: seq<real>, period: nat)
    requires period >= 1 && |ds| > 0
    requires forall i :: 0 <= i < |ds| ==> ds[i] < 0.0
    ensures RsiOfWindow(ds, period) == 0.0
  {
    assert Gains(ds) == seq(|ds|, i => 0.0);
    SumOfZeros(|ds|);
    SumPositive(Losses(ds));
    var avgLoss := Sum(Losses(ds)) / period as real;
    assert avgLoss > 0.0;
  }

  lemma {:induction false} SumOfZeros(n: nat)
    ensures Sum(seq(n, i => 0.0)) == 0.0
  {
    if n > 0 {
      assert seq(n, i => 0.0)[..n - 1] == seq(n - 1, i => 0.0);
      SumOfZeros(n - 1);
    }
  }

  lemma {:induction false} SumPositive(s: seq<real>)
    requires |s| > 0 && forall i :: 0 <= i < |s| ==> s[i] > 0.0
    ensures Sum(s) > 0.0
  {
    assert Sum(s[..|s| - 1]) >= 0.0;
  }

  /** EMA smoothing factor 2 / (period + 1). */
  function Alpha(period: nat): (a: real)
    requires period >= 1
    ensures 0.0 < a <= 1.0
  {
    2.0 / (period as real + 1.0)
  }

  /** Folding `ema = price * alpha + ema * (1 - alpha)` over the prices, from `seed`. */
  function EmaFold(seed: real, prices: seq<real>, alpha: real): real
  {
    if |prices| == 0 then seed
    else
      EmaStep(prices[|prices| - 1], EmaFold(seed, prices[..|prices| - 1], alpha), alpha)
  }

  /** One step of the EMA: `price * alpha + ema * (1 - alpha)`. */
  function EmaStep(price: real, ema: real, alpha: real): real
  {
    price * alpha + ema * (1.0 - alpha)
  }

  /** An EMA never leaves the range of the values it averages: a constant series has that constant as EMA. */
  lemma {:induction false} EmaWithinRange(seed: real, prices: seq<real>, alpha: real, lo: real, hi: real)
    requires 0.0 <= alpha <= 1.0
    requires lo <= seed <= hi
    requires forall i :: 0 <= i < |prices| ==> lo <= prices[i] <= hi
    ensures lo <= EmaFold(seed, prices, alpha) <= hi
  {
    if |prices| > 0 {
      EmaWithinRange(seed, prices[..|prices| - 1], alpha, lo, hi);
      var ema := EmaFold(seed, prices[..|prices| - 1], alpha);
      ConvexCombination(prices[|prices| - 1], ema, alpha, lo, hi);
    }
  }

  lemma ConvexCombination(x: real, y: real, alpha: real, lo: real, hi: real)
    requires 0.0 <= alpha <= 1.0 && lo <= x <= hi && lo <= y <= hi
    ensures lo <= x * alpha + y * (1.0 - alpha) <= hi
  {
    var d := x - y;
    assert x * alpha + y * (1.0 - alpha) == y + alpha * d;
    if d >= 0.0 {
      MulLeft(alpha, 1.0, d);
      MulNonNegative(alpha, d);
      assert y <= y + alpha * d <= x;
    } else {
      MulLeft(alpha, 1.0, -d);
      MulNonNegative(alpha, -d);
      assert alpha * d == -(alpha * -d);
      assert x <= y + alpha * d <= y;
    }
  }

  /**
   * The EMA loop of `get_ema`, for a snapshot holding at least `period`
   * candles: seed with `closes[-period]`, then fold over `closes[-period+1:]`.
   */
  method EmaOf(closes: seq<real>, period: nat) returns (ema: real)
    requires 1 <= period <= |closes|
    ensures ema == EmaFold(closes[|closes| - period], PyTail(closes, period - 1), Alpha(period))
  {
    var alpha := Alpha(period);
    var seed := closes[|closes| - period];
    var prices := PyTail(closes, period - 1);
    ema := seed;
    var i := 0;
    while i < |prices|
      invariant 0 <= i <= |prices|
      invariant ema == EmaFold(seed, prices[..i], alpha)
    {
      assert prices[..i + 1][..i] == prices[..i];
      ema := EmaStep(prices[i], ema, alpha);
      i := i + 1;
    }
    assert prices[..|prices|] == prices;
  }

  /** `get_ema` on a snapshot: the spot price when it is too short, otherwise the EMA fold of its closes. */
  function Ema(cs: seq<Candle>, period: nat, spot: real): (ema: real)
    requires period >= 1
    ensures |cs| < period ==> ema == spot
    ensures |cs| >= period ==> ema == EmaFold(Closes(cs)[|cs| - period], PyTail(Closes(cs), period - 1), Alpha(period))
  {
    if |cs| < period then spot
    else EmaFold(Closes(cs)[|cs| - period], PyTail(Closes(cs), period - 1), Alpha(period))
  }

  /** The EMA of a long enough snapshot lies within the range of its closes. */
  lemma {:induction false} EmaWithinCloses(cs: seq<Candle>, period: nat, lo: real, hi: real)
    requires 1 <= period <= |cs|
    requires forall i :: 0 <= i < |cs| ==> lo <= cs[i].close <= hi
    ensures lo <= EmaFold(Closes(cs)[|cs| - period], PyTail(Closes(cs), period - 1), Alpha(period)) <= hi
  {
    ClosesWithin(cs, lo, hi);
    SuffixWithin(Closes(cs), PyTail(Closes(cs), period - 1), lo, hi);
    EmaWithinRange(Closes(cs)[|cs| - period], PyTail(Closes(cs), period - 1), Alpha(period), lo, hi);
  }

  lemma ClosesWithin(cs: seq<Candle>, lo: real, hi: real)
    requires forall i :: 0 <= i < |cs| ==> lo <= cs[i].close <= hi
    ensures forall i :: 0 <= i < |Closes(cs)| ==> lo <= Closes(cs)[i] <= hi
  {
  }

  lemma SuffixWithin(s: seq<real>, suffix: seq<real>, lo: real, hi: real)
    requires |suffix| <= |s| && suffix == s[|s| - |suffix|..]
    requires forall i :: 0 <= i < |s| ==> lo <= s[i] <= hi
    ensures forall i :: 0 <= i < |suffix| ==> lo <= suffix[i] <= hi
  {
    forall i | 0 <= i < |suffix|
      ensures lo <= suffix[i] <= hi
    {
      assert suffix[i] == s[|s| - |suffix| + i];
    }
  }

  /** RSI bands of `get_expert_signals`. */
  function StateOf(rsi: real): (s: MarketState)
    ensures s == Overbought <==> rsi >= 80.0
    ensures s == Oversold <==> rsi <= 20.0
    ensures s == StrongTrendUp <==> 60.0 <= rsi < 80.0
    ensures s == StrongTrendDown <==> 20.0 < rsi <= 40.0
    ensures s == Normal <==> 40.0 < rsi < 60.0
  {
    if rsi >= 80.0 then Overbought
    else if rsi <= 20.0 then Oversold
    else if 60.0 <= rsi < 80.0 then StrongTrendUp
    else if 20.0 < rsi <= 40.0 then StrongTrendDown
    else Normal
  }

  /** `(ema10 / ema20 - 1) * 100`, the EMA gap in percent. */
  function EmaGap(ema10: real, ema20: real): real
    requires ema20 != 0.0
  {
    (ema10 / ema20 - 1.0) * 100.0
  }

  function TrendStrength(ema10: real, ema20: real, spot: real, drift: real): (real, Trend)
    requires ema20 != 0.0
  {
    var gap := EmaGap(ema10, ema20);
    if ema10 > ema20 then
      (Min(1.0, gap * 2.0 + (if spot > ema10 then 0.3 else 0.0) + (if drift > 0.0 then 0.2 else 0.0)), Bull)
    else if ema10 < ema20 then
      (Min(1.0, Abs(gap) * 2.0 + (if spot < ema10 then 0.3 else 0.0) + (if drift < 0.0 then 0.2 else 0.0)), Bear)
    else (0.0, Neutral)
  }

  /**
   * `get_expert_signals` from its inputs.  None stands for the
   * ZeroDivisionError of the EMA gap when `ema20` is 0 (a short buffer and
   * an empty spot cache give exactly that).
   */
  function ExpertSignalsFrom(rsi: real, ema10: real, ema20: real, spot: real, drift: real): (r: Option<ExpertSignals>)
    ensures r.None? <==> ema20 == 0.0
    ensures r.Some? ==> r.value.state == StateOf(rsi) && r.value.rsi == Round(rsi, 10)
  {
    if ema20 == 0.0 then None
    else
      var gap := EmaGap(ema10, ema20);
      var (strength, trend) := TrendStrength(ema10, ema20, spot, drift);
      Some(ExpertSignals(Round(rsi, 10), trend, Round(strength, 100), StateOf(rsi), Round(gap, 1000)))
  }

  /**
   * `get_expert_signals` on the feed's state: the RSI and both EMAs of the
   * buffer as it stands, the spot price after one refresh, and the drift
   * of the buffer topped up to 10 candles.
   */
  function ExpertSignalsOf(buf: seq<Candle>, lastCandle: real, cache: map<string, real>, lastSpot: real, coin: string,
                           now: real, spotReply: Option<map<string, real>>, candleReply: Option<seq<Kline>>,
                           m: Transcendentals): Option<ExpertSignals>
  {
    var spot := SpotQuote(SpotFetched(cache, lastSpot, now, spotReply), coin);
    ExpertSignalsFrom(Rsi(buf, 14), Ema(buf, 10, spot), Ema(buf, 20, spot), spot,
                      Drift(Ensured(buf, lastCandle, coin, 10, now, candleReply), 10, m))
  }

  /** The reported RSI, rounded to one decimal, stays in [0, 100]. */
  lemma ReportedRsiInRange(cs: seq<Candle>, ema10: real, ema20: real, spot: real, drift: real)
    ensures var r := ExpertSignalsFrom(Rsi(cs, 14), ema10, ema20, spot, drift);
            r.Some? ==> 0.0 <= r.value.rsi <= 100.0
  {
    RoundedRsiInRange(cs);
  }

  lemma RoundedRsiInRange(cs: seq<Candle>)
    ensures 0.0 <= Round(Rsi(cs, 14), 10) <= 100.0
  {
    var rsi := Rsi(cs, 14);
    RsiInRange(cs, 14);
    RoundMonotone(0.0, rsi, 10);
    RoundMonotone(rsi, 100.0, 10);
    RoundOfWhole(0.0, 10, 0);
    RoundOfWhole(100.0, 10, 1000);
  }

  /** The trend follows the EMA order, and a flat EMA pair has no strength. */
  lemma {:induction false} TrendFollowsEmas(rsi: real, ema10: real, ema20: real, spot: real, drift: real)
    requires ema20 != 0.0
    ensures ExpertSignalsFrom(rsi, ema10, ema20, spot, drift).value.trend == Bull <==> ema10 > ema20
    ensures ExpertSignalsFrom(rsi, ema10, ema20, spot, drift).value.trend == Bear <==> ema10 < ema20
    ensures ExpertSignalsFrom(rsi, ema10, ema20, spot, drift).value.trend == Neutral ==>
              ExpertSignalsFrom(rsi, ema10, ema20, spot, drift).value.strength == 0.0
  {
    if ema10 == ema20 {
      RoundOfWhole(0.0, 100, 0);
    }
  }

  /** With positive EMAs the reported strength lies in [0, 1]. */
  lemma {:induction false} StrengthInUnit(rsi: real, ema10: real, ema20: real, spot: real, drift: real)
    requires ema20 > 0.0
    ensures 0.0 <= ExpertSignalsFrom(rsi, ema10, ema20, spot, drift).value.strength <= 1.0
  {
    var (strength, trend) := TrendStrength(ema10, ema20, spot, drift);
    if ema10 > ema20 {
      GapPositive(ema10, ema20);
    }
    assert 0.0 <= strength <= 1.0;
    RoundWithin(strength, 100, 1);
  }

  lemma GapPositive(ema10: real, ema20: real)
    requires ema10 > ema20 > 0.0
    ensures EmaGap(ema10, ema20) > 0.0
  {
    assert ema10 / ema20 > 1.0;
  }
}
