// Fractional-Kelly stake sizing for a binary contract bought at price m:
// a winning share pays (1 - m)(1 - fee) on a stake of m, so the odds are
// b = (1 - m)(1 - fee) / m and the full Kelly fraction is (b p - q) / b.
module KellySizing {
  import opened Numerics
  import opened Wrappers
  import ProbabilityEngine

  /** Net win of one share bought at `price`, after the fee on winnings. */
  function NetWin(price: real, feeRate: real): real
  {
    (1.0 - price) * (1.0 - feeRate)
  }

  /** The odds b received per unit staked. */
  function Odds(price: real, feeRate: real): real
    requires price > 0.0
  {
    NetWin(price, feeRate) / price
  }

  /** Full Kelly fraction f* = (b p - q) / b. */
  function FullKelly(winProb: real, b: real): real
    requires b != 0.0
  {
    (b * winProb - (1.0 - winProb)) / b
  }

  /** `bankroll * f_actual`: the bet at f* scaled by the Kelly fraction and capped at max_bet_fraction. */
  function BetAmount(bankroll: real, fStar: real, kellyFraction: real, maxBetFraction: real): real
  {
    bankroll * Min(fStar * kellyFraction, maxBetFraction)
  }

  /**
   * The fractional part of `kelly_bet_size` once f* is known: scale by the
   * Kelly fraction, cap at max_bet_fraction, refuse a bet below the
   * minimum, then cap at 95% of the bankroll.
   */
  function FractionalStake(bankroll: real, fStar: real, kellyFraction: real, maxBetFraction: real,
                           minBetUsdc: real): (r: Option<real>)
  {
    var betAmount := BetAmount(bankroll, fStar, kellyFraction, maxBetFraction);
    if betAmount < minBetUsdc then None
    else Some(Min(betAmount, bankroll * 0.95))
  }

  /**
   * The stake `kelly_bet_size` computes before its final `round`, or None
   * where it returns 0.0 early.
   */
  function KellyStake(bankroll: real, winProb: real, marketPrice: real, feeRate: real,
                      kellyFraction: real, maxBetFraction: real, minBetUsdc: real): (r: Option<real>)
    ensures r.Some? ==> 0.0 < bankroll && 0.0 < winProb < 1.0 && 0.0 < marketPrice < 1.0
    ensures r.Some? ==> Odds(marketPrice, feeRate) > 0.0 && FullKelly(winProb, Odds(marketPrice, feeRate)) > 0.0
  {
    if bankroll <= 0.0 || winProb <= 0.0 || winProb >= 1.0 then None
    else if marketPrice <= 0.0 || marketPrice >= 1.0 then None
    else
      var b := Odds(marketPrice, feeRate);
      if b <= 0.0 then None
      else
        var fStar := FullKelly(winProb, b);
        if fStar <= 0.0 then None
        else FractionalStake(bankroll, fStar, kellyFraction, maxBetFraction, minBetUsdc)
  }

  /** Once the input and edge guards pass, the stake is the fractional stake of f*. */
  lemma StakeIsFractional(bankroll: real, winProb: real, marketPrice: real, feeRate: real,
                          kellyFraction: real, maxBetFraction: real, minBetUsdc: real)
    requires 0.0 < bankroll && 0.0 < winProb < 1.0 && 0.0 < marketPrice < 1.0
    requires Odds(marketPrice, feeRate) > 0.0 && FullKelly(winProb, Odds(marketPrice, feeRate)) > 0.0
    ensures KellyStake(bankroll, winProb, marketPrice, feeRate, kellyFraction, maxBetFraction, minBetUsdc)
         == FractionalStake(bankroll, FullKelly(winProb, Odds(marketPrice, feeRate)), kellyFraction, maxBetFraction, minBetUsdc)
  {
  }

  /**
   * A fractional stake reaches the minimum bet and stays within both caps:
   * max_bet_fraction of the bankroll and 95% of it.
   */
  lemma {:induction false} FractionalStakeCaps(bankroll: real, fStar: real, kellyFraction: real,
                                               maxBetFraction: real, minBetUsdc: real)
    requires bankroll > 0.0
    requires FractionalStake(bankroll, fStar, kellyFraction, maxBetFraction, minBetUsdc).Some?
    ensures BetAmount(bankroll, fStar, kellyFraction, maxBetFraction) >= minBetUsdc
    ensures FractionalStake(bankroll, fStar, kellyFraction, maxBetFraction, minBetUsdc).value
         <= Min(bankroll * maxBetFraction, 0.95 * bankroll)
    ensures minBetUsdc >= 0.0 ==>
              FractionalStake(bankroll, fStar, kellyFraction, maxBetFraction, minBetUsdc).value >= 0.0
  {
    var fActual := Min(fStar * kellyFraction, maxBetFraction);
    assert BetAmount(bankroll, fStar, kellyFraction, maxBetFraction) == bankroll * fActual;
    MulLeft(fActual, maxBetFraction, bankroll);
    assert fActual * bankroll == bankroll * fActual;
    assert maxBetFraction * bankroll == bankroll * maxBetFraction;
    var bet := BetAmount(bankroll, fStar, kellyFraction, maxBetFraction);
    assert bet <= bankroll * maxBetFraction;
    assert FractionalStake(bankroll, fStar, kellyFraction, maxBetFraction, minBetUsdc).value == Min(bet, bankroll * 0.95);
    assert 0.95 * bankroll == bankroll * 0.95;
  }

  /**
   * A stake is only made at a fee below 100%, once the fractional stake
   * reaches the minimum bet, and before rounding it is within both caps.
   */
  lemma {:induction false} KellyStakeCaps(bankroll: real, winProb: real, marketPrice: real, feeRate: real,
                                          kellyFraction: real, maxBetFraction: real, minBetUsdc: real)
    requires KellyStake(bankroll, winProb, marketPrice, feeRate, kellyFraction, maxBetFraction, minBetUsdc).Some?
    ensures feeRate < 1.0
    ensures BetAmount(bankroll, FullKelly(winProb, Odds(marketPrice, feeRate)), kellyFraction, maxBetFraction) >= minBetUsdc
    ensures KellyStake(bankroll, winProb, marketPrice, feeRate, kellyFraction, maxBetFraction, minBetUsdc).value
         <= Min(bankroll * maxBetFraction, 0.95 * bankroll)
  {
    OddsPositiveMeansFeeBelowOne(marketPrice, feeRate);
    StakeIsFractional(bankroll, winProb, marketPrice, feeRate, kellyFraction, maxBetFraction, minBetUsdc);
    var fStar := FullKelly(winProb, Odds(marketPrice, feeRate));
    FractionalStakeCaps(bankroll, fStar, kellyFraction, maxBetFraction, minBetUsdc);
  }

  lemma OddsPositiveMeansFeeBelowOne(price: real, feeRate: real)
    requires 0.0 < price < 1.0 && Odds(price, feeRate) > 0.0
    ensures feeRate < 1.0
  {
    if feeRate >= 1.0 {
      OddsNonPositive(price, feeRate);
    }
  }

  /** `kelly_bet_size`: the stake rounded to cents, 0.0 when no bet is made. */
  function KellyBetSize(bankroll: real, winProb: real, marketPrice: real, feeRate: real,
                        kellyFraction: real, maxBetFraction: real, minBetUsdc: real): (r: real)
    ensures bankroll <= 0.0 || winProb <= 0.0 || winProb >= 1.0 || marketPrice <= 0.0 || marketPrice >= 1.0 ==> r == 0.0
  {
    match KellyStake(bankroll, winProb, marketPrice, feeRate, kellyFraction, maxBetFraction, minBetUsdc)
    case None => 0.0
    case Some(stake) => Round2(stake)
  }

  /** With a fee of 100% or more the odds are never positive. */
  lemma OddsNonPositive(price: real, feeRate: real)
    requires 0.0 < price < 1.0 && feeRate >= 1.0
    ensures Odds(price, feeRate) <= 0.0
  {
    assert NetWin(price, feeRate) <= 0.0 by {
      MulLeft(1.0 - feeRate, 0.0, 1.0 - price);
      assert (1.0 - feeRate) * (1.0 - price) == NetWin(price, feeRate);
    }
  }

  /** No stake at all when the fee eats the whole win. */
  lemma {:induction false} KellyZeroWhenFeeAtLeastOne(bankroll: real, winProb: real, marketPrice: real, feeRate: real,
                                                      kellyFraction: real, maxBetFraction: real, minBetUsdc: real)
    requires feeRate >= 1.0
    ensures KellyBetSize(bankroll, winProb, marketPrice, feeRate, kellyFraction, maxBetFraction, minBetUsdc) == 0.0
  {
    if 0.0 < marketPrice < 1.0 {
      OddsNonPositive(marketPrice, feeRate);
    }
  }

  /**
   * On a tradable price, full Kelly is positive exactly when the edge of
   * `calculate_edge` with the same fee is positive.
   */
  lemma {:induction false} FullKellySignIsEdgeSign(winProb: real, marketPrice: real, feeRate: real)
    requires 0.0 < marketPrice < 1.0 && feeRate < 1.0
    ensures Odds(marketPrice, feeRate) > 0.0
    ensures FullKelly(winProb, Odds(marketPrice, feeRate)) > 0.0 <==>
              ProbabilityEngine.CalculateEdge(winProb, marketPrice, feeRate) > 0.0
  {
    var w := NetWin(marketPrice, feeRate);
    NetWinPositive(marketPrice, feeRate);
    var b := Odds(marketPrice, feeRate);
    OddsTimesPrice(w, marketPrice);
    var num := b * winProb - (1.0 - winProb);
    EdgeIsScaledNumerator(winProb, marketPrice, w, b);
    assert ProbabilityEngine.CalculateEdge(winProb, marketPrice, feeRate) == num * marketPrice;
    SignOfProduct(num, marketPrice);
    SignOfQuotient(num, b);
  }

  lemma NetWinPositive(price: real, feeRate: real)
    requires price < 1.0 && feeRate < 1.0
    ensures NetWin(price, feeRate) > 0.0
  {
    var a := 1.0 - price;
    var b := 1.0 - feeRate;
    MulPositive(a, b);
    assert NetWin(price, feeRate) == a * b;
  }

  lemma OddsTimesPrice(w: real, price: real)
    requires w > 0.0 && price > 0.0
    ensures w / price > 0.0 && (w / price) * price == w
  {
  }

  lemma EdgeIsScaledNumerator(p: real, price: real, w: real, b: real)
    requires b * price == w
    ensures (b * p - (1.0 - p)) * price == p * w - (1.0 - p) * price
  {
    calc {
      (b * p - (1.0 - p)) * price;
      (b * price) * p - (1.0 - p) * price;
      p * w - (1.0 - p) * price;
    }
  }

  lemma SignOfProduct(a: real, c: real)
    requires c > 0.0
    ensures a * c > 0.0 <==> a > 0.0
  {
    if a <= 0.0 {
      MulLeft(a, 0.0, c);
    }
  }

  lemma SignOfQuotient(a: real, c: real)
    requires c > 0.0
    ensures a / c > 0.0 <==> a > 0.0
  {
    if a <= 0.0 {
      DivLeft(a, 0.0, c);
    }
  }

  /** No positive edge, no stake. */
  lemma {:induction false} KellyZeroWithoutEdge(bankroll: real, winProb: real, marketPrice: real, feeRate: real,
                                                kellyFraction: real, maxBetFraction: real, minBetUsdc: real)
    requires ProbabilityEngine.CalculateEdge(winProb, marketPrice, feeRate) <= 0.0
    ensures KellyBetSize(bankroll, winProb, marketPrice, feeRate, kellyFraction, maxBetFraction, minBetUsdc) == 0.0
  {
    if KellyStake(bankroll, winProb, marketPrice, feeRate, kellyFraction, maxBetFraction, minBetUsdc).Some? {
      KellyStakeCaps(bankroll, winProb, marketPrice, feeRate, kellyFraction, maxBetFraction, minBetUsdc);
      FullKellySignIsEdgeSign(winProb, marketPrice, feeRate);
    }
  }

  /**
   * Conversely, a positive edge whose fractional stake reaches the minimum
   * always produces a stake.
   */
  lemma {:induction false} KellyStakeWithEdge(bankroll: real, winProb: real, marketPrice: real, feeRate: real,
                                              kellyFraction: real, maxBetFraction: real, minBetUsdc: real)
    requires 0.0 < bankroll && 0.0 < winProb < 1.0 && 0.0 < marketPrice < 1.0 && feeRate < 1.0
    requires ProbabilityEngine.CalculateEdge(winProb, marketPrice, feeRate) > 0.0
    requires Odds(marketPrice, feeRate) > 0.0 && BetAmount(bankroll, FullKelly(winProb, Odds(marketPrice, feeRate)), kellyFraction, maxBetFraction) >= minBetUsdc
    ensures KellyStake(bankroll, winProb, marketPrice, feeRate, kellyFraction, maxBetFraction, minBetUsdc).Some?
  {
    FullKellySignIsEdgeSign(winProb, marketPrice, feeRate);
    StakeIsFractional(bankroll, winProb, marketPrice, feeRate, kellyFraction, maxBetFraction, minBetUsdc);
  }

  /** The returned stake exceeds neither cap by more than the half cent of rounding. */
  lemma {:induction false} KellyBetWithinCaps(bankroll: real, winProb: real, marketPrice: real, feeRate: real,
                                              kellyFraction: real, maxBetFraction: real, minBetUsdc: real)
    ensures KellyBetSize(bankroll, winProb, marketPrice, feeRate, kellyFraction, maxBetFraction, minBetUsdc)
         <= Max(0.0, Min(bankroll * maxBetFraction, 0.95 * bankroll) + 0.005)
  {
    var r := KellyStake(bankroll, winProb, marketPrice, feeRate, kellyFraction, maxBetFraction, minBetUsdc);
    if r.Some? {
      KellyStakeCaps(bankroll, winProb, marketPrice, feeRate, kellyFraction, maxBetFraction, minBetUsdc);
      RoundError(r.value, 100);
    }
  }

  /** A higher win probability never yields a smaller stake. */
  lemma {:induction false} KellyMonotoneInWinProb(bankroll: real, p1: real, p2: real, marketPrice: real, feeRate: real,
                                                  kellyFraction: real, maxBetFraction: real, minBetUsdc: real)
    requires 0.0 < p1 <= p2 < 1.0 && kellyFraction >= 0.0 && minBetUsdc >= 0.0
    ensures KellyBetSize(bankroll, p1, marketPrice, feeRate, kellyFraction, maxBetFraction, minBetUsdc)
         <= KellyBetSize(bankroll, p2, marketPrice, feeRate, kellyFraction, maxBetFraction, minBetUsdc)
  {
    var r1 := KellyStake(bankroll, p1, marketPrice, feeRate, kellyFraction, maxBetFraction, minBetUsdc);
    var r2 := KellyStake(bankroll, p2, marketPrice, feeRate, kellyFraction, maxBetFraction, minBetUsdc);
    if r1.Some? {
      StakeMonotone(bankroll, p1, p2, marketPrice, feeRate, kellyFraction, maxBetFraction, minBetUsdc);
      RoundMonotone(r1.value, r2.value, 100);
    } else if r2.Some? {
      StakeNonNegative(bankroll, p2, marketPrice, feeRate, kellyFraction, maxBetFraction, minBetUsdc);
      RoundMonotone(0.0, r2.value, 100);
      RoundOfWhole(0.0, 100, 0);
    }
  }

  lemma StakeNonNegative(bankroll: real, p: real, marketPrice: real, feeRate: real,
                         kellyFraction: real, maxBetFraction: real, minBetUsdc: real)
    requires minBetUsdc >= 0.0
    requires KellyStake(bankroll, p, marketPrice, feeRate, kellyFraction, maxBetFraction, minBetUsdc).Some?
    ensures KellyStake(bankroll, p, marketPrice, feeRate, kellyFraction, maxBetFraction, minBetUsdc).value >= 0.0
  {
    StakeIsFractional(bankroll, p, marketPrice, feeRate, kellyFraction, maxBetFraction, minBetUsdc);
    FractionalStakeCaps(bankroll, FullKelly(p, Odds(marketPrice, feeRate)), kellyFraction, maxBetFraction, minBetUsdc);
  }

  /** A larger f* never yields a smaller fractional stake. */
  lemma {:induction false} FractionalStakeMonotone(bankroll: real, f1: real, f2: real, kellyFraction: real,
                                                   maxBetFraction: real, minBetUsdc: real)
    requires bankroll > 0.0 && f1 <= f2 && kellyFraction >= 0.0
    requires FractionalStake(bankroll, f1, kellyFraction, maxBetFraction, minBetUsdc).Some?
    ensures FractionalStake(bankroll, f2, kellyFraction, maxBetFraction, minBetUsdc).Some?
    ensures FractionalStake(bankroll, f1, kellyFraction, maxBetFraction, minBetUsdc).value
         <= FractionalStake(bankroll, f2, kellyFraction, maxBetFraction, minBetUsdc).value
  {
    BetMonotone(bankroll, f1, f2, kellyFraction, maxBetFraction);
    MinMonotone(BetAmount(bankroll, f1, kellyFraction, maxBetFraction),
                BetAmount(bankroll, f2, kellyFraction, maxBetFraction), bankroll * 0.95);
  }

  /** The capped bet before the minimum check grows with f*. */
  lemma BetMonotone(bankroll: real, f1: real, f2: real, kellyFraction: real, maxBetFraction: real)
    requires bankroll > 0.0 && f1 <= f2 && kellyFraction >= 0.0
    ensures BetAmount(bankroll, f1, kellyFraction, maxBetFraction) <= BetAmount(bankroll, f2, kellyFraction, maxBetFraction)
  {
    MulLeft(f1, f2, kellyFraction);
    MinMonotone(f1 * kellyFraction, f2 * kellyFraction, maxBetFraction);
    var a1 := Min(f1 * kellyFraction, maxBetFraction);
    var a2 := Min(f2 * kellyFraction, maxBetFraction);
    MulLeft(a1, a2, bankroll);
    assert a1 * bankroll == bankroll * a1 && a2 * bankroll == bankroll * a2;
  }

  lemma {:induction false} StakeMonotone(bankroll: real, p1: real, p2: real, marketPrice: real, feeRate: real,
                                         kellyFraction: real, maxBetFraction: real, minBetUsdc: real)
    requires 0.0 < p1 <= p2 < 1.0 && kellyFraction >= 0.0
    requires KellyStake(bankroll, p1, marketPrice, feeRate, kellyFraction, maxBetFraction, minBetUsdc).Some?
    ensures KellyStake(bankroll, p2, marketPrice, feeRate, kellyFraction, maxBetFraction, minBetUsdc).Some?
    ensures KellyStake(bankroll, p1, marketPrice, feeRate, kellyFraction, maxBetFraction, minBetUsdc).value
         <= KellyStake(bankroll, p2, marketPrice, feeRate, kellyFraction, maxBetFraction, minBetUsdc).value
  {
    var b := Odds(marketPrice, feeRate);
    FullKellyMonotone(p1, p2, b);
    var f1 := FullKelly(p1, b);
    var f2 := FullKelly(p2, b);
    StakeIsFractional(bankroll, p1, marketPrice, feeRate, kellyFraction, maxBetFraction, minBetUsdc);
    StakeIsFractional(bankroll, p2, marketPrice, feeRate, kellyFraction, maxBetFraction, minBetUsdc);
    FractionalStakeMonotone(bankroll, f1, f2, kellyFraction, maxBetFraction, minBetUsdc);
  }

  lemma FullKellyMonotone(p1: real, p2: real, b: real)
    requires p1 <= p2 && b > 0.0
    ensures FullKelly(p1, b) <= FullKelly(p2, b)
  {
    DivLeft(b * p1 - (1.0 - p1), b * p2 - (1.0 - p2), b);
  }

  /** The reference inputs: a 0.70 estimate at 0.55 bets at most 10; a 0.40 estimate bets nothing. */
  lemma KellyExamples()
    ensures 0.0 < KellyBetSize(100.0, 0.70, 0.55, 0.02, 0.25, 0.10, 1.0) <= 10.0
    ensures KellyBetSize(100.0, 0.40, 0.55, 0.02, 0.25, 0.10, 1.0) == 0.0
  {
    var b := Odds(0.55, 0.02);
    assert b == 0.441 / 0.55;
    var f := FullKelly(0.70, b);
    assert f > 0.0;
    assert Min(f * 0.25, 0.10) == f * 0.25;
    var stake := 100.0 * (f * 0.25);
    assert 8.0 < stake < 9.0;
    assert KellyStake(100.0, 0.70, 0.55, 0.02, 0.25, 0.10, 1.0) == Some(stake);
    RoundMonotone(8.0, stake, 100);
    RoundMonotone(stake, 9.0, 100);
    RoundOfWhole(8.0, 100, 800);
    RoundOfWhole(9.0, 100, 900);
    KellyZeroWithoutEdge(100.0, 0.40, 0.55, 0.02, 0.25, 0.10, 1.0);
  }

  /** The debugging record of `kelly_info`. */
  datatype KellyInfo = KellyInfo(odds: real, fullKelly: real, edge: real, expectedGrowth: real)

  const ZeroInfo: KellyInfo := KellyInfo(0.0, 0.0, 0.0, 0.0)

  /**
   * `kelly_info` as written.  None stands for the ValueError `math.log`
   * raises on a non-positive argument: the function only rejects
   * win_prob <= 0, so a certain win (p = 1) makes f* = 1 and log(1 - f*)
   * undefined.
   */
  function KellyInfoAsWritten(winProb: real, marketPrice: real, feeRate: real, m: Transcendentals): (r: Option<KellyInfo>)
    ensures (marketPrice <= 0.0 || marketPrice >= 1.0 || winProb <= 0.0) ==> r == Some(ZeroInfo)
  {
    if marketPrice <= 0.0 || marketPrice >= 1.0 || winProb <= 0.0 then Some(ZeroInfo)
    else
      var netWin := NetWin(marketPrice, feeRate);
      var b := netWin / marketPrice;
      var q := 1.0 - winProb;
      if b <= 0.0 then Some(ZeroInfo)
      else
        var fStar := FullKelly(winProb, b);
        var edge := winProb * netWin - q * marketPrice;
        if fStar > 0.0 && (1.0 + b * fStar <= 0.0 || 1.0 - fStar <= 0.0) then None
        else
          var growth := if fStar > 0.0 then winProb * m.ln(1.0 + b * fStar) + q * m.ln(1.0 - fStar) else 0.0;
          Some(KellyInfo(Round(b, 10000), Round(fStar, 10000), Round(edge, 10000), Round(growth, 1000000)))
  }

  /** The as-written record raises for a certain win. */
  lemma KellyInfoAsWrittenRaisesAtCertainty(m: Transcendentals)
    ensures KellyInfoAsWritten(1.0, 0.5, 0.02, m) == None
  {
    var b := Odds(0.5, 0.02);
    assert b > 0.0;
    assert FullKelly(1.0, b) == 1.0;
  }

  /**
   * `kelly_info` with the probability guard of `kelly_bet_size`
   * (win_prob >= 1 also yields the zero record).
   */
  function KellyInfoOf(winProb: real, marketPrice: real, feeRate: real, m: Transcendentals): (r: KellyInfo)
    ensures (marketPrice <= 0.0 || marketPrice >= 1.0 || winProb <= 0.0 || winProb >= 1.0) ==> r == ZeroInfo
  {
    if winProb >= 1.0 then ZeroInfo
    else
      match KellyInfoAsWritten(winProb, marketPrice, feeRate, m)
      case Some(info) => info
      case None => ZeroInfo // unreachable: see LogArgumentsPositive
  }

  /**
   * Inside the guards both logarithm arguments are positive: f* < p < 1
   * and 1 + b f* > 1.  So the guarded record never raises.
   */
  lemma {:induction false} LogArgumentsPositive(winProb: real, marketPrice: real, feeRate: real, m: Transcendentals)
    requires winProb < 1.0
    ensures KellyInfoAsWritten(winProb, marketPrice, feeRate, m).Some?
  {
    if 0.0 < marketPrice < 1.0 && 0.0 < winProb {
      var b := Odds(marketPrice, feeRate);
      if b > 0.0 {
        var fStar := FullKelly(winProb, b);
        if fStar > 0.0 {
          FullKellyBelowOne(winProb, b);
          MulNonNegative(b, fStar);
        }
      }
    }
  }

  lemma FullKellyBelowOne(winProb: real, b: real)
    requires winProb < 1.0 && b > 0.0
    ensures FullKelly(winProb, b) < 1.0
  {
    assert FullKelly(winProb, b) == winProb - (1.0 - winProb) / b;
    assert (1.0 - winProb) / b > 0.0;
  }

  /** Where it returns a record, the guarded version agrees with the original. */
  lemma {:induction false} KellyInfoOfAgrees(winProb: real, marketPrice: real, feeRate: real, m: Transcendentals)
    requires winProb < 1.0
    ensures KellyInfoAsWritten(winProb, marketPrice, feeRate, m) == Some(KellyInfoOf(winProb, marketPrice, feeRate, m))
  {
    LogArgumentsPositive(winProb, marketPrice, feeRate, m);
  }

  /** On valid inputs the reported edge is `calculate_edge` with the same fee, rounded to 4 decimals. */
  lemma {:induction false} KellyInfoEdge(winProb: real, marketPrice: real, feeRate: real, m: Transcendentals)
    requires 0.0 < winProb < 1.0 && 0.0 < marketPrice < 1.0 && feeRate < 1.0
    ensures KellyInfoOf(winProb, marketPrice, feeRate, m).edge ==
              Round(ProbabilityEngine.CalculateEdge(winProb, marketPrice, feeRate), 10000)
  {
    var netWin := NetWin(marketPrice, feeRate);
    NetWinPositive(marketPrice, feeRate);
    OddsTimesPrice(netWin, marketPrice);
    LogArgumentsPositive(winProb, marketPrice, feeRate, m);
    KellyInfoOfAgrees(winProb, marketPrice, feeRate, m);
    var info := KellyInfoAsWritten(winProb, marketPrice, feeRate, m).value;
    assert KellyInfoOf(winProb, marketPrice, feeRate, m) == info;
    AsWrittenEdge(winProb, marketPrice, feeRate, m);
    var e := winProb * netWin - (1.0 - winProb) * marketPrice;
    assert info.edge == Round(e, 10000);
    CalculateEdgeIsNetWinEdge(winProb, marketPrice, feeRate);
  }

  /** On a tradable price `calculate_edge` pays the same net win as the Kelly odds. */
  lemma CalculateEdgeIsNetWinEdge(winProb: real, marketPrice: real, feeRate: real)
    requires 0.0 < marketPrice < 1.0
    ensures ProbabilityEngine.CalculateEdge(winProb, marketPrice, feeRate) ==
              winProb * NetWin(marketPrice, feeRate) - (1.0 - winProb) * marketPrice
  {
  }

  lemma AsWrittenEdge(winProb: real, marketPrice: real, feeRate: real, m: Transcendentals)
    requires 0.0 < winProb < 1.0 && 0.0 < marketPrice < 1.0
    requires Odds(marketPrice, feeRate) > 0.0
    requires KellyInfoAsWritten(winProb, marketPrice, feeRate, m).Some?
    ensures KellyInfoAsWritten(winProb, marketPrice, feeRate, m).value.edge ==
              Round(winProb * NetWin(marketPrice, feeRate) - (1.0 - winProb) * marketPrice, 10000)
  {
  }
}
