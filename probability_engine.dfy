// Pricing of a short-dated binary contract: the probability that the spot
// finishes above the strike under a drifted geometric Brownian motion, the
// fee-adjusted expected value of buying at the market price, a confidence
// score for the estimate, and the expert-signal adjustment of the estimate.
module ProbabilityEngine {
  import opened Numerics
  import opened BinanceFeed

  /** 365.25 days of seconds. */
  const SecondsPerYear: real := 31557600.0
  /** Below this scaled volatility the price is treated as frozen. */
  const MinSigma: real := 0.0000000001
  const ProbFloor: real := 0.001
  const ProbCeil: real := 0.999

  /** The answer once no diffusion is left: the contract pays iff spot > strike. */
  function SettledOutcome(spot: real, strike: real): (p: real)
    ensures p == 1.0 <==> spot > strike
    ensures p == 0.0 <==> spot <= strike
  {
    if spot > strike then 1.0 else 0.0
  }

  /** d2 of the Black-Scholes digital, with time in years. */
  function D2(spot: real, strike: real, mu: real, sigma: real, t: real, m: Transcendentals): real
    requires spot > 0.0 && strike > 0.0 && sigma > 0.0 && t > 0.0
    requires m.PositiveRoot()
  {
    (m.ln(spot / strike) + (mu - 0.5 * sigma * sigma) * t) / (sigma * m.sqrt(t))
  }

  /** `mu = drift if drift != 0 else risk_free_rate`. */
  function Mu(drift: real, riskFreeRate: real): real
  {
    if drift != 0.0 then drift else riskFreeRate
  }

  /** `calculate_binary_probability`: P(S_T > K) = N(d2), clipped. */
  function CalculateBinaryProbability(spot: real, strike: real, volatility: real, timeToExpirySec: real,
                                      drift: real, riskFreeRate: real, volScale: real,
                                      m: Transcendentals): (p: real)
    requires m.PositiveRoot()
    ensures 0.0 <= p <= 1.0
    ensures spot <= 0.0 || strike <= 0.0 ==> p == 0.5
    ensures spot > 0.0 && strike > 0.0 && timeToExpirySec <= 0.0 ==> p == SettledOutcome(spot, strike)
    ensures spot > 0.0 && strike > 0.0 && volatility * volScale <= MinSigma ==> p == SettledOutcome(spot, strike)
    ensures spot > 0.0 && strike > 0.0 && timeToExpirySec > 0.0 && volatility * volScale > MinSigma ==>
              ProbFloor <= p <= ProbCeil
  {
    if spot <= 0.0 || strike <= 0.0 then 0.5
    else
      var t := timeToExpirySec / SecondsPerYear;
      if t <= 0.0 then SettledOutcome(spot, strike)
      else
        var sigma := volatility * volScale;
        if sigma <= MinSigma then SettledOutcome(spot, strike)
        else
          var d2 := D2(spot, strike, Mu(drift, riskFreeRate), sigma, t, m);
          Clip(ProbFloor, ProbCeil, m.normCdf(d2))
  }

  ghost predicate Monotone(f: real -> real)
  {
    forall a: real, b: real :: a <= b ==> f(a) <= f(b)
  }

  /** A drift of exactly zero falls back to the risk-free rate. */
  lemma ZeroDriftUsesRiskFreeRate(spot: real, strike: real, volatility: real, timeToExpirySec: real,
                                  riskFreeRate: real, volScale: real, m: Transcendentals)
    requires m.PositiveRoot()
    ensures CalculateBinaryProbability(spot, strike, volatility, timeToExpirySec, 0.0, riskFreeRate, volScale, m)
         == CalculateBinaryProbability(spot, strike, volatility, timeToExpirySec, riskFreeRate, riskFreeRate, volScale, m)
  {
  }

  lemma D2MonotoneInSpot(s1: real, s2: real, strike: real, mu: real, sigma: real, t: real, m: Transcendentals)
    requires 0.0 < s1 <= s2 && strike > 0.0 && sigma > 0.0 && t > 0.0
    requires m.PositiveRoot() && Monotone(m.ln)
    ensures D2(s1, strike, mu, sigma, t, m) <= D2(s2, strike, mu, sigma, t, m)
  {
    DivLeft(s1, s2, strike);
    assert m.ln(s1 / strike) <= m.ln(s2 / strike);
    assert m.sqrt(t) > 0.0;
    assert sigma * m.sqrt(t) > 0.0;
    var c := (mu - 0.5 * sigma * sigma) * t;
    DivLeft(m.ln(s1 / strike) + c, m.ln(s2 / strike) + c, sigma * m.sqrt(t));
  }

  /**
   * With a monotone logarithm and CDF, a higher spot never lowers the
   * probability of finishing above the strike.
   */
  lemma {:induction false} ProbabilityMonotoneInSpot(s1: real, s2: real, strike: real, volatility: real,
                                                     timeToExpirySec: real, drift: real, riskFreeRate: real,
                                                     volScale: real, m: Transcendentals)
    requires 0.0 < s1 <= s2
    requires m.PositiveRoot() && Monotone(m.ln) && Monotone(m.normCdf)
    ensures CalculateBinaryProbability(s1, strike, volatility, timeToExpirySec, drift, riskFreeRate, volScale, m)
         <= CalculateBinaryProbability(s2, strike, volatility, timeToExpirySec, drift, riskFreeRate, volScale, m)
  {
    var t := timeToExpirySec / SecondsPerYear;
    var sigma := volatility * volScale;
    if strike > 0.0 && t > 0.0 && sigma > MinSigma {
      D2MonotoneInSpot(s1, s2, strike, Mu(drift, riskFreeRate), sigma, t, m);
      var d1 := D2(s1, strike, Mu(drift, riskFreeRate), sigma, t, m);
      var d2 := D2(s2, strike, Mu(drift, riskFreeRate), sigma, t, m);
      assert m.normCdf(d1) <= m.normCdf(d2);
    }
  }

  /** `calculate_edge`: expected value of one share bought at the market price, net of the fee on winnings. */
  function CalculateEdge(fairProb: real, marketPrice: real, feeRate: real): (e: real)
    ensures marketPrice <= 0.0 || marketPrice >= 1.0 ==> e == -1.0
  {
    if marketPrice <= 0.0 || marketPrice >= 1.0 then -1.0
    else
      var winPayout := (1.0 - marketPrice) * (1.0 - feeRate);
      var loss := marketPrice;
      fairProb * winPayout - (1.0 - fairProb) * loss
  }

  /**
   * On a tradable price the edge grows with the fair probability, and it is
   * positive exactly above the break-even probability m / (W + m), where W is
   * the net win per share.
   */
  lemma {:induction false} EdgeBreakEven(p: real, marketPrice: real, feeRate: real)
    requires 0.0 < marketPrice < 1.0 && feeRate <= 1.0
    ensures CalculateEdge(p, marketPrice, feeRate) > 0.0 <==>
              p * ((1.0 - marketPrice) * (1.0 - feeRate) + marketPrice) > marketPrice
  {
    var w := (1.0 - marketPrice) * (1.0 - feeRate);
    assert CalculateEdge(p, marketPrice, feeRate) == p * (w + marketPrice) - marketPrice;
  }

  lemma {:induction false} EdgeMonotoneInProb(p1: real, p2: real, marketPrice: real, feeRate: real)
    requires p1 <= p2 && 0.0 < marketPrice < 1.0 && feeRate <= 1.0
    ensures CalculateEdge(p1, marketPrice, feeRate) <= CalculateEdge(p2, marketPrice, feeRate)
  {
    var w := (1.0 - marketPrice) * (1.0 - feeRate);
    assert w >= 0.0 by {
      MulNonNegative(1.0 - marketPrice, 1.0 - feeRate);
    }
    assert CalculateEdge(p1, marketPrice, feeRate) == p1 * (w + marketPrice) - marketPrice;
    assert CalculateEdge(p2, marketPrice, feeRate) == p2 * (w + marketPrice) - marketPrice;
    MulLeft(p1, p2, w + marketPrice);
  }

  /** The sign of the edge on the two reference inputs. */
  lemma EdgeExamples()
    ensures CalculateEdge(0.70, 0.55, 0.02) > 0.0
    ensures CalculateEdge(0.40, 0.55, 0.02) < 0.0
  {
  }

  /** `calculate_implied_probability`: the market price itself, on every input. */
  function CalculateImpliedProbability(marketPrice: real, feeRate: real): (p: real)
    ensures p == marketPrice
  {
    if marketPrice <= 0.0 || marketPrice >= 1.0 then marketPrice else marketPrice
  }

  function CandleFactor(nCandles: int): real
  {
    if nCandles < 5 then 0.2 else if nCandles < 10 then 0.5 else if nCandles < 20 then 0.8 else 1.0
  }

  function ExpiryFactor(timeToExpirySec: real): real
  {
    if timeToExpirySec < 30.0 then 0.3 else if timeToExpirySec < 60.0 then 0.6 else 1.0
  }

  function VolFactor(vol: real): real
  {
    if vol > 5.0 then 0.5 else if vol < 0.05 then 0.4 else 1.0
  }

  /** `get_probability_confidence`: the product of the three band penalties, clipped to [0, 1]. */
  function GetProbabilityConfidence(nCandles: int, vol: real, timeToExpirySec: real): (c: real)
    ensures 0.0 <= c <= 1.0
  {
    Clip(0.0, 1.0, 1.0 * CandleFactor(nCandles) * ExpiryFactor(timeToExpirySec) * VolFactor(vol))
  }

  /**
   * Full confidence exactly when no penalty applies: at least 20 candles,
   * at least a minute to expiry and a volatility within [0.05, 5].
   */
  lemma {:induction false} FullConfidenceIff(nCandles: int, vol: real, timeToExpirySec: real)
    ensures GetProbabilityConfidence(nCandles, vol, timeToExpirySec) == 1.0 <==>
              nCandles >= 20 && timeToExpirySec >= 60.0 && 0.05 <= vol <= 5.0
  {
    var a := CandleFactor(nCandles);
    var b := ExpiryFactor(timeToExpirySec);
    var c := VolFactor(vol);
    assert 0.0 < a <= 1.0 && 0.0 < b <= 1.0 && 0.0 < c <= 1.0;
    if a * b * c == 1.0 {
      if a < 1.0 || b < 1.0 || c < 1.0 {
        ProductBelowOne(a, b, c);
      }
    }
  }

  lemma ProductBelowOne(a: real, b: real, c: real)
    requires 0.0 < a <= 1.0 && 0.0 < b <= 1.0 && 0.0 < c <= 1.0
    requires a < 1.0 || b < 1.0 || c < 1.0
    ensures a * b * c < 1.0
  {
    assert a * b <= 1.0 * b by { MulLeft(a, 1.0, b); }
    assert a * b * c <= 1.0 * c by { MulLeft(a * b, 1.0, c); }
    if a < 1.0 {
      assert a * b < b;
      assert a * b * c < b * c;
      MulLeft(b, 1.0, c);
    } else if b < 1.0 {
      assert a * b < 1.0;
      assert a * b * c < c;
    }
  }

  /** More candle history never lowers the confidence. */
  lemma {:induction false} ConfidenceMonotoneInCandles(n1: int, n2: int, vol: real, timeToExpirySec: real)
    requires n1 <= n2
    ensures GetProbabilityConfidence(n1, vol, timeToExpirySec) <= GetProbabilityConfidence(n2, vol, timeToExpirySec)
  {
    var b := ExpiryFactor(timeToExpirySec);
    var c := VolFactor(vol);
    assert CandleFactor(n1) <= CandleFactor(n2);
    MulLeft(1.0 * CandleFactor(n1), 1.0 * CandleFactor(n2), b);
    MulLeft(1.0 * CandleFactor(n1) * b, 1.0 * CandleFactor(n2) * b, c);
  }

  /** One entry of the adjustment log. */
  datatype Reason = PureBull(boost: real) | PureBear(boost: real) | MomentumUp | MomentumDown | CoolingDown | HeatingUp

  datatype Adjustment = Adjustment(prob: real, reasons: seq<Reason>)
  {
    /** The log line reads "Neutral" exactly when no reason was recorded. */
    predicate Neutral()
    {
      |reasons| == 0
    }
  }

  /** The trend step: bull adds strength / 4, bear subtracts it. */
  function TrendShift(s: ExpertSignals): real
  {
    match s.trend
    case Bull => s.strength * 0.25
    case Bear => -(s.strength * 0.25)
    case Neutral => 0.0
  }

  /** `adjust_prob_by_expert_signals`. */
  function AdjustProbByExpertSignals(baseProb: real, s: ExpertSignals): (a: Adjustment)
    ensures ProbFloor <= a.prob <= ProbCeil
  {
    var (p1, r1) :=
      match s.trend
      case Bull => (baseProb + s.strength * 0.25, [PureBull(s.strength * 0.25)])
      case Bear => (baseProb - s.strength * 0.25, [PureBear(s.strength * 0.25)])
      case Neutral => (baseProb, []);
    var (p2, r2) :=
      if s.state == StrongTrendUp then (p1 + 0.08, r1 + [MomentumUp])
      else if s.state == StrongTrendDown then (p1 - 0.08, r1 + [MomentumDown])
      else (p1, r1);
    var (p3, r3) :=
      if s.state == Overbought && p2 > 0.85 then (p2 - 0.03, r2 + [CoolingDown])
      else if s.state == Oversold && p2 < 0.15 then (p2 + 0.03, r2 + [HeatingUp])
      else (p2, r2);
    Adjustment(Clip(ProbFloor, ProbCeil, p3), r3)
  }

  /** Outside the momentum and extreme states, the result is the clipped trend-shifted input. */
  lemma {:induction false} AdjustNormalState(baseProb: real, s: ExpertSignals)
    requires s.state == Normal
    ensures AdjustProbByExpertSignals(baseProb, s).prob == Clip(ProbFloor, ProbCeil, baseProb + TrendShift(s))
    ensures AdjustProbByExpertSignals(baseProb, s).Neutral() <==> s.trend == Neutral
  {
  }

  /** Cooling applies in the overbought state exactly when the shifted estimate exceeds 0.85. */
  lemma {:induction false} AdjustOverbought(baseProb: real, s: ExpertSignals)
    requires s.state == Overbought
    ensures CoolingDown in AdjustProbByExpertSignals(baseProb, s).reasons <==> baseProb + TrendShift(s) > 0.85
    ensures AdjustProbByExpertSignals(baseProb, s).prob ==
              Clip(ProbFloor, ProbCeil, baseProb + TrendShift(s) - (if baseProb + TrendShift(s) > 0.85 then 0.03 else 0.0))
  {
  }

  /** Heating applies in the oversold state exactly when the shifted estimate is below 0.15. */
  lemma {:induction false} AdjustOversold(baseProb: real, s: ExpertSignals)
    requires s.state == Oversold
    ensures HeatingUp in AdjustProbByExpertSignals(baseProb, s).reasons <==> baseProb + TrendShift(s) < 0.15
    ensures AdjustProbByExpertSignals(baseProb, s).prob ==
              Clip(ProbFloor, ProbCeil, baseProb + TrendShift(s) + (if baseProb + TrendShift(s) < 0.15 then 0.03 else 0.0))
  {
  }

  /** The log is "Neutral" exactly when no step fired. */
  lemma {:induction false} AdjustNeutralIff(baseProb: real, s: ExpertSignals)
    ensures AdjustProbByExpertSignals(baseProb, s).Neutral() <==>
              s.trend == Neutral && s.state != StrongTrendUp && s.state != StrongTrendDown &&
              !(s.state == Overbought && baseProb > 0.85) && !(s.state == Oversold && baseProb < 0.15)
  {
  }
}
