// The shadow "fade" bot: for every strategy writing to the trade log it keeps
// an anti-persona that takes the opposite side of each opened trade and
// settles it the other way round when the original settles.
module ShadowRunner {
  import opened Wrappers
  import opened Collections

  const AntiInitialBankroll: real := 4000.0
  const AntiSpread: real := 0.02
  const AntiPriceCap: real := 0.99
  /** Positions older than this many seconds are dropped as stale. */
  const StaleAfter: int := 3600

  /** The fields of an OPEN, WIN or LOSS record of the trade log that the shadow reads. */
  datatype TradeRecord = TradeRecord(tid: string, side: string, price: real, sizeUsdc: real, coin: string,
                                     marketId: string, timestamp: Option<int>)

  /** How the original trade settled. */
  datatype OriginalResult = OriginalWin | OriginalLoss

  /** The opposite side: NO for YES, YES for anything else. */
  function AntiSide(side: string): (r: string)
    ensures r == "YES" || r == "NO"
    ensures r == "NO" <==> side == "YES"
  {
    if side == "YES" then "NO" else "YES"
  }

  /** Fading twice gives the original side back. */
  lemma AntiSideInvolution(side: string)
    requires side == "YES" || side == "NO"
    ensures AntiSide(AntiSide(side)) == side
  {
  }

  /**
   * The entry price of the fade: the complement of the original price plus
   * a two-cent spread, replaced by 0.99 when that reaches one dollar.
   */
  function AntiPrice(originalPrice: real): (r: real)
    ensures r < 1.0
    ensures originalPrice >= 0.0 ==> originalPrice + r >= AntiPriceCap
    ensures originalPrice > AntiSpread ==> originalPrice + r == 1.0 + AntiSpread
    ensures originalPrice <= AntiSpread ==> r == AntiPriceCap
  {
    var p := 1.0 - originalPrice + AntiSpread;
    if p >= 1.0 then AntiPriceCap else p
  }

  /**
   * Above the two-cent spread a dearer original makes a cheaper fade. At
   * the cap the price jumps: an original of 0.02 fades at 0.99, one of 0.021
   * at 0.999.
   */
  lemma AntiPriceAntitone(p: real, q: real)
    requires AntiSpread < p <= q
    ensures AntiPrice(q) <= AntiPrice(p)
  {
  }

  lemma AntiPriceJumpsAtCap()
    ensures AntiPrice(0.02) == AntiPriceCap && AntiPrice(0.021) > AntiPrice(0.02)
  {
  }

  datatype AntiPosition = AntiPosition(side: string, entryPrice: real, size: real, shares: real, coin: string,
                                       marketId: string, openedAt: int)

  datatype AntiStats = AntiStats(trades: nat, wins: nat, losses: nat, pnl: real, totalBet: real)

  datatype AntiBook = AntiBook(bankroll: real, stats: AntiStats)

  /** Cash minus realised profit: a close raises it by the stake, whichever way it settles. */
  function Capital(b: AntiBook): real
  {
    b.bankroll - b.stats.pnl
  }

  /** The original won, so the fade lost its stake. */
  function FadeLost(b: AntiBook, pos: AntiPosition): (r: AntiBook)
    ensures Capital(r) == Capital(b) + pos.size
    ensures r.bankroll == b.bankroll
    ensures r.stats == b.stats.(losses := b.stats.losses + 1, pnl := r.stats.pnl)
  {
    AntiBook(b.bankroll, b.stats.(losses := b.stats.losses + 1, pnl := b.stats.pnl - pos.size))
  }

  /** The original lost, so every share of the fade pays one dollar, no fee. */
  function FadeWon(b: AntiBook, pos: AntiPosition): (r: AntiBook)
    ensures Capital(r) == Capital(b) + pos.size
    ensures r.bankroll == b.bankroll + pos.shares
    ensures r.stats == b.stats.(wins := b.stats.wins + 1, pnl := r.stats.pnl)
  {
    AntiBook(b.bankroll + pos.shares,
             b.stats.(wins := b.stats.wins + 1, pnl := b.stats.pnl + (pos.shares - pos.size)))
  }

  function CloseBook(b: AntiBook, pos: AntiPosition, result: OriginalResult): AntiBook
  {
    match result
    case OriginalWin => FadeLost(b, pos)
    case OriginalLoss => FadeWon(b, pos)
  }

  /** The stake of a fade: the original stake, cut down to the bankroll. */
  function FadeStake(sizeUsdc: real, bankroll: real): (s: real)
    ensures s <= bankroll && s <= sizeUsdc
    ensures s == sizeUsdc || s == bankroll
  {
    if sizeUsdc > bankroll then bankroll else sizeUsdc
  }

  /** A fade never overdraws: a non-negative bankroll stays non-negative after the stake. */
  lemma FadeNeverOverdraws(sizeUsdc: real, bankroll: real)
    requires bankroll >= 0.0
    ensures bankroll - FadeStake(sizeUsdc, bankroll) >= 0.0
  {
  }

  predicate Stale(pos: AntiPosition, now: int)
  {
    now - pos.openedAt > StaleAfter
  }

  /** The tids of `order` whose positions are stale at `now`, in order. */
  function StaleTids(order: seq<string>, positions: map<string, AntiPosition>, now: int): (r: seq<string>)
    requires forall t :: t in order ==> t in positions
    ensures forall t :: t in r <==> t in order && Stale(positions[t], now)
  {
    if |order| == 0 then []
    else
      var rest := StaleTids(order[..|order| - 1], positions, now);
      var last := order[|order| - 1];
      assert forall t :: t in order <==> t in order[..|order| - 1] || t == last;
      if Stale(positions[last], now) then rest + [last] else rest
  }

  // ---------------------------------------------------------------------
  // An anti-persona's state as a value, and what each record does to it.
  // ---------------------------------------------------------------------

  /** Everything an anti-persona changes, as one value. */
  datatype AntiState = AntiState(bankroll: real, order: seq<string>, positions: map<string, AntiPosition>,
                                 processed: seq<string>, stats: AntiStats)

  /** `order` lists the held tids once each, and every held tid has been processed once. */
  ghost predicate AntiValid(st: AntiState)
  {
    NoDuplicates(st.order) && NoDuplicates(st.processed) && (forall t :: t in st.order <==> t in st.positions) &&
    forall t :: t in st.positions ==> t in st.processed
  }

  /** `cleanup_stale_positions` on the state. */
  function Cleaned(st: AntiState, now: int): AntiState
    requires forall t :: t in st.order ==> t in st.positions
  {
    var stale := StaleTids(st.order, st.positions, now);
    st.(positions := Without(st.positions, stale), order := RemoveAll(st.order, stale))
  }

  /**
   * The cleanup keeps exactly the positions that are not stale, unchanged,
   * touches nothing else, and a second cleanup at the same instant finds
   * nothing more to drop.
   */
  lemma CleanedEffect(st: AntiState, now: int)
    requires AntiValid(st)
    ensures var r := Cleaned(st, now);
            AntiValid(r) && r.bankroll == st.bankroll && r.stats == st.stats && r.processed == st.processed &&
            (forall t :: t in r.positions <==> t in st.positions && !Stale(st.positions[t], now)) &&
            (forall t :: t in r.positions ==> r.positions[t] == st.positions[t]) &&
            Cleaned(r, now) == r
  {
    var r := Cleaned(st, now);
    NoneStale(r.order, r.positions, now);
    assert Without(r.positions, []) == r.positions;
  }

  /** With no stale position in the order there is nothing to clean up. */
  lemma {:induction false} NoneStale(order: seq<string>, positions: map<string, AntiPosition>, now: int)
    requires forall t :: t in order ==> t in positions && !Stale(positions[t], now)
    ensures StaleTids(order, positions, now) == []
  {
    if |order| > 0 {
      var front := order[..|order| - 1];
      assert forall t :: t in front ==> t in order;
      NoneStale(front, positions, now);
    }
  }

  /** The stake of a fade debited and counted, and its tid recorded. */
  function Debited(st: AntiState, trade: TradeRecord): AntiState
  {
    var size := FadeStake(trade.sizeUsdc, st.bankroll);
    st.(bankroll := st.bankroll - size,
        stats := st.stats.(totalBet := st.stats.totalBet + size, trades := st.stats.trades + 1),
        processed := st.processed + [trade.tid])
  }

  /**
   * The fade position of `trade`: the opposite side at the fade price with
   * shares worth the stake, on the original's coin and market, opened when
   * the original was.
   */
  function Fade(trade: TradeRecord, size: real, price: real): (pos: AntiPosition)
    requires price != 0.0 && trade.timestamp.Some?
    ensures pos.side == AntiSide(trade.side) && pos.entryPrice == price && pos.size == size
    ensures pos.shares * pos.entryPrice == pos.size
    ensures pos.coin == trade.coin && pos.marketId == trade.marketId && trade.timestamp == Some(pos.openedAt)
  {
    SharesWorthStake(size, price);
    AntiPosition(AntiSide(trade.side), price, size, size / price, trade.coin, trade.marketId, trade.timestamp.value)
  }

  /** The shares of a fade: the stake divided by a nonzero price, worth the stake at that price. */
  lemma SharesWorthStake(size: real, price: real)
    requires price != 0.0
    ensures (size / price) * price == size
  {
  }

  /** `open_position` on the state, followed, when a position is stored, by the cleanup of `save_status`. */
  function Opened(st: AntiState, trade: TradeRecord, now: int): AntiState
    requires AntiValid(st)
  {
    if trade.tid in st.processed then st
    else
      var paid := Debited(st, trade);
      var price := AntiPrice(trade.price);
      if price == 0.0 || trade.timestamp.None? then paid
      else
        var pos := Fade(trade, FadeStake(trade.sizeUsdc, st.bankroll), price);
        Cleaned(paid.(positions := paid.positions[trade.tid := pos], order := paid.order + [trade.tid]), now)
  }

  /**
   * A new tid is faded once: the stake (cut to the bankroll) is debited and
   * counted and the tid recorded. A tid already processed changes nothing,
   * so replaying an OPEN is harmless.
   */
  lemma OpenedEffect(st: AntiState, trade: TradeRecord, now: int)
    requires AntiValid(st)
    ensures var r := Opened(st, trade, now);
            AntiValid(r) && trade.tid in r.processed && Opened(r, trade, now) == r &&
            (trade.tid in st.processed ==> r == st) &&
            (trade.tid !in st.processed ==>
               var size := FadeStake(trade.sizeUsdc, st.bankroll);
               r.bankroll == st.bankroll - size && r.processed == st.processed + [trade.tid] &&
               r.stats == st.stats.(trades := st.stats.trades + 1, totalBet := st.stats.totalBet + size))
  {
    if trade.tid !in st.processed {
      var paid := Debited(st, trade);
      var price := AntiPrice(trade.price);
      assert AntiValid(paid);
      if !(price == 0.0 || trade.timestamp.None?) {
        var pos := Fade(trade, FadeStake(trade.sizeUsdc, st.bankroll), price);
        var stored := paid.(positions := paid.positions[trade.tid := pos], order := paid.order + [trade.tid]);
        assert AntiValid(stored);
        CleanedEffect(stored, now);
      }
    }
  }

  /**
   * The fade of a new tid is built only with a nonzero fade price and a
   * readable timestamp; otherwise the positions stay as they were. A built
   * fade is kept unless its original is over an hour old, and it is the
   * `Fade` of the trade at the stake and the fade price.
   */
  lemma OpenedFade(st: AntiState, trade: TradeRecord, now: int)
    requires AntiValid(st) && trade.tid !in st.processed
    ensures var r := Opened(st, trade, now);
            var built := AntiPrice(trade.price) != 0.0 && trade.timestamp.Some?;
            (!built ==> r.positions == st.positions && r.order == st.order) &&
            (built ==> (trade.tid in r.positions <==> now - trade.timestamp.value <= StaleAfter)) &&
            (trade.tid in r.positions ==>
               built && r.positions[trade.tid] == Fade(trade, FadeStake(trade.sizeUsdc, st.bankroll), AntiPrice(trade.price)))
  {
    var paid := Debited(st, trade);
    var price := AntiPrice(trade.price);
    if !(price == 0.0 || trade.timestamp.None?) {
      var pos := Fade(trade, FadeStake(trade.sizeUsdc, st.bankroll), price);
      var stored := paid.(positions := paid.positions[trade.tid := pos], order := paid.order + [trade.tid]);
      assert AntiValid(stored);
      CleanedEffect(stored, now);
      var r := Cleaned(stored, now);
      assert Opened(st, trade, now) == r;
      if trade.tid in r.positions {
        assert r.positions[trade.tid] == pos;
      }
    }
  }

  /** Opening a fade keeps every other position only if the book held it before and it is not stale. */
  lemma OpenedKeepsOthers(st: AntiState, trade: TradeRecord, now: int)
    requires AntiValid(st) && trade.tid !in st.processed
    requires AntiPrice(trade.price) != 0.0 && trade.timestamp.Some?
    ensures var r := Opened(st, trade, now);
            forall t :: t in r.positions && t != trade.tid ==>
              t in st.positions && r.positions[t] == st.positions[t] && !Stale(st.positions[t], now)
  {
    var paid := Debited(st, trade);
    var pos := Fade(trade, FadeStake(trade.sizeUsdc, st.bankroll), AntiPrice(trade.price));
    var stored := paid.(positions := paid.positions[trade.tid := pos], order := paid.order + [trade.tid]);
    assert AntiValid(stored);
    CleanedEffect(stored, now);
    var r := Cleaned(stored, now);
    forall t | t in r.positions && t != trade.tid
      ensures t in st.positions && r.positions[t] == st.positions[t] && !Stale(st.positions[t], now)
    {
      assert stored.positions[t] == st.positions[t];
    }
  }

  /** `close_position` on the state, followed by the cleanup of `save_status`. */
  function Closed(st: AntiState, tid: string, result: OriginalResult, now: int): AntiState
    requires AntiValid(st)
  {
    if tid !in st.positions then st
    else
      var b := CloseBook(AntiBook(st.bankroll, st.stats), st.positions[tid], result);
      Cleaned(st.(bankroll := b.bankroll, stats := b.stats, positions := st.positions - {tid},
                  order := Remove(st.order, tid)), now)
  }

  /**
   * A held fade is settled the other way round from the original, which
   * returns its stake to capital, and it is gone afterwards with every
   * stale position; the processed tids stay. A tid not held changes
   * nothing, so replaying a close is harmless.
   */
  lemma ClosedEffect(st: AntiState, tid: string, result: OriginalResult, now: int)
    requires AntiValid(st)
    ensures var r := Closed(st, tid, result, now);
            AntiValid(r) && tid !in r.positions && r.processed == st.processed && Closed(r, tid, result, now) == r &&
            (tid !in st.positions ==> r == st) &&
            (tid in st.positions ==>
               AntiBook(r.bankroll, r.stats) == CloseBook(AntiBook(st.bankroll, st.stats), st.positions[tid], result) &&
               Capital(AntiBook(r.bankroll, r.stats)) == Capital(AntiBook(st.bankroll, st.stats)) + st.positions[tid].size &&
               (forall t :: t in r.positions <==> t in st.positions && t != tid && !Stale(st.positions[t], now)) &&
               (forall t :: t in r.positions ==> r.positions[t] == st.positions[t]))
  {
    if tid in st.positions {
      var b := CloseBook(AntiBook(st.bankroll, st.stats), st.positions[tid], result);
      var dropped := st.(bankroll := b.bankroll, stats := b.stats, positions := st.positions - {tid},
                         order := Remove(st.order, tid));
      assert AntiValid(dropped);
      CleanedEffect(dropped, now);
    }
  }

  /** One line of the trade log on the state: OPEN fades, WIN and LOSS settle, anything else is ignored. */
  function AfterRecord(st: AntiState, action: string, trade: TradeRecord, now: int): (r: AntiState)
    requires AntiValid(st)
  {
    if action == "OPEN" then Opened(st, trade, now)
    else if action == "WIN" then Closed(st, trade.tid, OriginalWin, now)
    else if action == "LOSS" then Closed(st, trade.tid, OriginalLoss, now)
    else st
  }

  /**
   * Every record keeps the state valid and never forgets a processed tid;
   * replaying the same record changes nothing more.
   */
  lemma AfterRecordReplay(st: AntiState, action: string, trade: TradeRecord, now: int)
    requires AntiValid(st)
    ensures var r := AfterRecord(st, action, trade, now);
            AntiValid(r) && st.processed <= r.processed && AfterRecord(r, action, trade, now) == r
  {
    if action == "OPEN" {
      OpenedEffect(st, trade, now);
    } else if action == "WIN" {
      ClosedEffect(st, trade.tid, OriginalWin, now);
    } else if action == "LOSS" {
      ClosedEffect(st, trade.tid, OriginalLoss, now);
    }
  }

  class AntiStrategy {
    const name: string
    var bankroll: real
    /** The tids of `positions` in insertion order. */
    var order: seq<string>
    var positions: map<string, AntiPosition>
    /** Every tid ever opened, kept so that a replayed OPEN is ignored. */
    var processed: seq<string>
    var stats: AntiStats

    /** The anti-persona's state as one value. */
    function Snapshot(): AntiState
      reads this
    {
      AntiState(bankroll, order, positions, processed, stats)
    }

    ghost predicate Valid()
      reads this
    {
      AntiValid(Snapshot())
    }

    constructor (strategyName: string)
      ensures Valid()
      ensures name == "[R] " + strategyName && bankroll == AntiInitialBankroll
      ensures order == [] && positions == map[] && processed == []
      ensures stats == AntiStats(0, 0, 0, 0.0, 0.0)
    {
      name := "[R] " + strategyName;
      bankroll := AntiInitialBankroll;
      order := [];
      positions := map[];
      processed := [];
      stats := AntiStats(0, 0, 0, 0.0, 0.0);
    }

    /** `cleanup_stale_positions`: drop every position older than an hour; the book is untouched. */
    method CleanupStalePositions(now: int)
      requires Valid()
      modifies this
      ensures Valid() && Snapshot() == Cleaned(old(Snapshot()), now)
      ensures forall t :: t in positions <==> t in old(positions) && !Stale(old(positions)[t], now)
      ensures forall t :: t in positions ==> positions[t] == old(positions)[t]
      ensures bankroll == old(bankroll) && stats == old(stats) && processed == old(processed)
    {
      var stale := CollectStale(now);
      DropTids(stale);
    }

    /** The first loop of `cleanup_stale_positions`: the stale tids in insertion order. */
    method CollectStale(now: int) returns (stale: seq<string>)
      requires Valid()
      ensures stale == StaleTids(order, positions, now)
    {
      stale := [];
      var i := 0;
      while i < |order|
        invariant 0 <= i <= |order|
        invariant stale == StaleTids(order[..i], positions, now)
      {
        assert order[..i + 1][..i] == order[..i];
        if Stale(positions[order[i]], now) {
          stale := stale + [order[i]];
        }
        i := i + 1;
      }
      assert order[..|order|] == order;
    }

    /** The second loop of `cleanup_stale_positions`: `del self.positions[tid]` for each tid. */
    method DropTids(tids: seq<string>)
      requires Valid()
      modifies this
      ensures Valid()
      ensures positions == Without(old(positions), tids) && order == RemoveAll(old(order), tids)
      ensures bankroll == old(bankroll) && stats == old(stats) && processed == old(processed)
    {
      var k := 0;
      while k < |tids|
        invariant 0 <= k <= |tids| && Valid()
        invariant bankroll == old(bankroll) && stats == old(stats) && processed == old(processed)
        invariant positions == Without(old(positions), tids[..k])
        invariant RemoveAll(old(order), tids) == RemoveAll(order, tids[k..])
      {
        assert tids[k..][1..] == tids[k + 1..];
        assert tids[..k + 1] == tids[..k] + [tids[k]];
        WithoutStep(old(positions), tids[..k], tids[k]);
        positions := positions - {tids[k]};
        order := Remove(order, tids[k]);
        k := k + 1;
      }
      assert tids[..|tids|] == tids;
    }

    /**
     * `open_position`: fade a newly opened trade once. The stake is debited
     * and the tid recorded before the position is built; a position that
     * cannot be built (an entry price of zero, an unreadable timestamp)
     * leaves those debits in place. A stored position is followed by the
     * stale-position cleanup of `save_status`.
     */
    method OpenPosition(trade: TradeRecord, now: int)
      requires Valid()
      modifies this
      ensures Valid() && Snapshot() == Opened(old(Snapshot()), trade, now)
      ensures trade.tid in old(processed) ==>
                bankroll == old(bankroll) && stats == old(stats) && positions == old(positions) &&
                processed == old(processed)
      ensures trade.tid !in old(processed) ==>
                var size := FadeStake(trade.sizeUsdc, old(bankroll));
                bankroll == old(bankroll) - size && processed == old(processed) + [trade.tid] &&
                stats == old(stats).(trades := old(stats).trades + 1, totalBet := old(stats).totalBet + size)
      ensures trade.tid in processed
      ensures forall t :: t in positions && t != trade.tid ==> t in old(positions) && positions[t] == old(positions)[t]
      ensures trade.tid !in old(processed) && trade.tid in positions ==>
                positions[trade.tid].side == AntiSide(trade.side) &&
                positions[trade.tid].entryPrice == AntiPrice(trade.price) &&
                positions[trade.tid].size == FadeStake(trade.sizeUsdc, old(bankroll))
    {
      if trade.tid in processed {
        return;
      }
      ghost var before := Snapshot();
      var antiPrice := AntiPrice(trade.price);
      var size := FadeStake(trade.sizeUsdc, bankroll);
      bankroll := bankroll - size;
      stats := stats.(totalBet := stats.totalBet + size, trades := stats.trades + 1);
      processed := processed + [trade.tid];
      OpenedEffect(before, trade, now);
      OpenedFade(before, trade, now);
      if antiPrice == 0.0 || trade.timestamp.None? {
        return;
      }
      OpenedKeepsOthers(before, trade, now);
      positions := positions[trade.tid := Fade(trade, size, antiPrice)];
      order := order + [trade.tid];
      CleanupStalePositions(now);
    }

    /**
     * `close_position`: settle the fade the other way round from the
     * original and delete it, then run the stale-position cleanup. A tid
     * without a position is ignored, so a replayed close does nothing.
     */
    method ClosePosition(tid: string, result: OriginalResult, now: int)
      requires Valid()
      modifies this
      ensures Valid() && Snapshot() == Closed(old(Snapshot()), tid, result, now)
      ensures processed == old(processed)
      ensures tid !in positions
      ensures tid !in old(positions) ==>
                bankroll == old(bankroll) && stats == old(stats) && positions == old(positions) && order == old(order)
      ensures tid in old(positions) ==>
                AntiBook(bankroll, stats) == CloseBook(old(AntiBook(bankroll, stats)), old(positions[tid]), result) &&
                (forall t :: t in positions <==> t in old(positions) && t != tid && !Stale(old(positions)[t], now)) &&
                forall t :: t in positions ==> positions[t] == old(positions)[t]
    {
      if tid !in positions {
        return;
      }
      ClosedEffect(Snapshot(), tid, result, now);
      var pos := positions[tid];
      var b := CloseBook(AntiBook(bankroll, stats), pos, result);
      bankroll := b.bankroll;
      stats := b.stats;
      positions := positions - {tid};
      order := Remove(order, tid);
      CleanupStalePositions(now);
    }

    /** One line of the trade log for this anti-persona, dispatched by its action. */
    method HandleRecord(action: string, trade: TradeRecord, now: int)
      requires Valid()
      modifies this
      ensures Valid() && Snapshot() == AfterRecord(old(Snapshot()), action, trade, now)
      ensures old(processed) <= processed
      ensures action != "OPEN" && action != "WIN" && action != "LOSS" ==>
                bankroll == old(bankroll) && stats == old(stats) && positions == old(positions)
    {
      if action == "OPEN" {
        OpenPosition(trade, now);
      } else if action == "WIN" {
        ClosePosition(trade.tid, OriginalWin, now);
      } else if action == "LOSS" {
        ClosePosition(trade.tid, OriginalLoss, now);
      }
    }
  }

  /** Fading a trade twice books it once: the second OPEN of the same tid changes nothing. */
  method OpenTwiceIsOnce(trade: TradeRecord, now: int) returns (a: AntiStrategy)
    ensures a.Valid() && a.stats.trades == 1 && a.processed == [trade.tid]
  {
    a := new AntiStrategy("EV");
    a.OpenPosition(trade, now);
    a.OpenPosition(trade, now);
  }
}
