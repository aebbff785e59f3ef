// The whale manager: re-tests the active wallets of the database against a
// slippage-adjusted replay of their recent BUYs, retires those that no
// longer meet the bar, and adds leaderboard wallets that do.
module WhaleManager {
  import opened Numerics
  import opened Wrappers
  import opened Collections
  import opened WhaleDb

  const SlippagePct: real := 0.03
  /** Minimum win rate, in percent. */
  const MinWinRate: real := 75.0
  /** Minimum return after slippage, in percent. */
  const MinRoi: real := 0.5
  const MinTrades: nat := 10
  const WinPrice: real := 0.99
  const LossPrice: real := 0.01
  const EntryCap: real := 0.99
  /** Trades replayed when an active wallet is re-tested... */
  const RecheckLimit: nat := 30
  /** ...and when a candidate is tested. */
  const CandidateLimit: nat := 50
  const BatchSize: nat := 50
  const LeaderboardLimit: nat := 300

  datatype EdgeActivity = EdgeActivity(kind: string, side: string, price: real, size: real, outcomeIndex: nat,
                                       slug: string, conditionId: string)

  /** `value(slug, conditionId, outcomeIndex)`: the outcome's current price, None when it cannot be read. */
  type PriceLookup = (string, string, nat) -> Option<real>

  datatype Edge = Edge(roi: real, winRate: real, tradesAnalyzed: nat)

  predicate IsBuy(a: EdgeActivity)
  {
    a.kind == "TRADE" && a.side == "BUY"
  }

  function Buys(acts: seq<EdgeActivity>): (r: seq<EdgeActivity>)
    ensures |r| <= |acts|
    ensures forall a :: a in r <==> a in acts && IsBuy(a)
  {
    if |acts| == 0 then []
    else (if IsBuy(acts[0]) then [acts[0]] else []) + Buys(acts[1..])
  }

  /** The replayed entry: the whale's price plus 3% slippage, at most 0.99. */
  function EntryCost(whalePrice: real): (c: real)
    ensures c <= EntryCap
    ensures 0.0 <= whalePrice <= EntryCap ==> whalePrice <= c
    ensures whalePrice > 0.0 ==> c > 0.0
  {
    Slipped(whalePrice);
    Min(EntryCap, whalePrice * (1.0 + SlippagePct))
  }

  /** Slippage never lowers a non-negative price and keeps a positive one positive. */
  lemma Slipped(whalePrice: real)
    ensures 0.0 <= whalePrice ==> whalePrice <= whalePrice * (1.0 + SlippagePct)
    ensures whalePrice > 0.0 ==> whalePrice * (1.0 + SlippagePct) > 0.0
  {
    if 0.0 <= whalePrice {
      MulNonNegative(whalePrice, SlippagePct);
      if whalePrice > 0.0 {
        MulPositive(whalePrice, 1.0 + SlippagePct);
      }
    }
  }

  /** Running sums of the replay; `priced` counts the BUYs whose current price was read. */
  datatype Totals = Totals(invested: real, current: real, wins: nat, losses: nat, priced: nat)

  /** `size * price`: what `size` shares are worth at `price`. */
  function Value(size: real, price: real): real
  {
    size * price
  }

  /** One BUY of the replay; a BUY whose current price cannot be read is skipped entirely. */
  function AddTrade(t: Totals, a: EdgeActivity, value: PriceLookup): (r: Totals)
    ensures r.wins + r.losses <= t.wins + t.losses + (r.priced - t.priced)
    ensures r.priced == t.priced || r.priced == t.priced + 1
  {
    match value(a.slug, a.conditionId, a.outcomeIndex)
    case None => t
    case Some(c) =>
      Totals(t.invested + Value(a.size, EntryCost(a.price)), t.current + Value(a.size, c),
             if c >= WinPrice then t.wins + 1 else t.wins,
             if c < WinPrice && c <= LossPrice then t.losses + 1 else t.losses,
             t.priced + 1)
  }

  function TotalsOf(buys: seq<EdgeActivity>, value: PriceLookup): (r: Totals)
    ensures r.wins + r.losses <= r.priced <= |buys|
  {
    if |buys| == 0 then Totals(0.0, 0.0, 0, 0, 0)
    else AddTrade(TotalsOf(buys[..|buys| - 1], value), buys[|buys| - 1], value)
  }

  /** Wins over decided trades, in percent; 0 when nothing is decided. */
  function WinRate(wins: nat, losses: nat): real
  {
    Percent(wins, wins + losses)
  }

  /** What `evaluate_whale_edge` returns for a feed reply. */
  function EdgeOf(reply: Option<seq<EdgeActivity>>, value: PriceLookup): (r: Option<Edge>)
    ensures r.Some? ==> 0.0 <= r.value.winRate <= 100.0 && r.value.tradesAnalyzed >= MinTrades
  {
    if reply.None? then None
    else
      var buys := Buys(reply.value);
      if |buys| < MinTrades then None
      else
        var t := TotalsOf(buys, value);
        if t.invested == 0.0 then None
        else Some(Edge((t.current - t.invested) / t.invested * 100.0, WinRate(t.wins, t.losses), |buys|))
  }

  /**
   * With a positive investment the return bar is a plain comparison: the
   * replayed positions are worth at least 1.005 times what they cost.
   */
  lemma {:induction false} RoiBar(current: real, invested: real)
    requires invested > 0.0
    ensures (current - invested) / invested * 100.0 >= MinRoi <==> current >= 1.005 * invested
  {
    var ratio := (current - invested) / invested;
    DivAtLeast(current - invested, invested, MinRoi / 100.0);
    assert ratio * 100.0 >= MinRoi <==> ratio >= MinRoi / 100.0;
  }

  /** The win-rate bar: at least three wins for every loss. */
  lemma {:induction false} WinRateBar(wins: nat, losses: nat)
    requires wins + losses > 0
    ensures WinRate(wins, losses) >= MinWinRate <==> wins >= 3 * losses
  {
    var n := (wins + losses) as real;
    DivAtLeast(wins as real, n, MinWinRate / 100.0);
    assert WinRate(wins, losses) >= MinWinRate <==> wins as real / n >= MinWinRate / 100.0;
  }

  /** One BUY of the loop of `evaluate_whale_edge`: a trade with a known price adds its cost, value and outcome. */
  method CountBuy(t: EdgeActivity, invested: real, current: real, wins: nat, losses: nat, priced: nat,
                  value: PriceLookup)
    returns (invested': real, current': real, wins': nat, losses': nat, priced': nat)
    ensures Totals(invested', current', wins', losses', priced')
            == AddTrade(Totals(invested, current, wins, losses, priced), t, value)
  {
    invested', current', wins', losses', priced' := invested, current, wins, losses, priced;
    var ourPrice := EntryCost(t.price);
    var investment := Value(t.size, ourPrice);
    var price := value(t.slug, t.conditionId, t.outcomeIndex);
    if price.Some? {
      var c := price.value;
      invested' := invested + investment;
      current' := current + Value(t.size, c);
      if c >= WinPrice {
        wins' := wins + 1;
      } else if c <= LossPrice {
        losses' := losses + 1;
      }
      priced' := priced + 1;
    }
  }

  /** The loop of `evaluate_whale_edge` over the BUYs, summing cost, value, wins and losses. */
  method ReplayBuys(buys: seq<EdgeActivity>, value: PriceLookup) returns (totals: Totals)
    ensures totals == TotalsOf(buys, value)
  {
    var invested := 0.0;
    var current := 0.0;
    var wins: nat := 0;
    var losses: nat := 0;
    var priced: nat := 0;
    var i := 0;
    while i < |buys|
      invariant 0 <= i <= |buys|
      invariant TotalsOf(buys[..i], value) == Totals(invested, current, wins, losses, priced)
    {
      assert buys[..i + 1][..i] == buys[..i];
      invested, current, wins, losses, priced := CountBuy(buys[i], invested, current, wins, losses, priced, value);
      i := i + 1;
    }
    assert buys[..|buys|] == buys;
    totals := Totals(invested, current, wins, losses, priced);
  }

  /** `evaluate_whale_edge`: the replay of the BUYs in `reply`. */
  method EvaluateWhaleEdge(reply: Option<seq<EdgeActivity>>, value: PriceLookup) returns (r: Option<Edge>)
    ensures r == EdgeOf(reply, value)
    ensures r.None? <==> reply.None? || |Buys(reply.value)| < MinTrades ||
                         TotalsOf(Buys(reply.value), value).invested == 0.0
  {
    if reply.None? {
      return None;
    }
    var buys := Buys(reply.value);
    if |buys| < MinTrades {
      return None;
    }
    var totals := ReplayBuys(buys, value);
    var invested, current, wins, losses := totals.invested, totals.current, totals.wins, totals.losses;
    if invested == 0.0 {
      return None;
    }
    var roi := (current - invested) / invested * 100.0;
    var winRate := if wins + losses > 0 then wins as real / (wins + losses) as real * 100.0 else 0.0;
    r := Some(Edge(roi, winRate, |buys|));
  }

  predicate MeetsBar(e: Edge)
  {
    e.roi >= MinRoi && e.winRate >= MinWinRate
  }

  /**
   * A replay with a positive cost passes the manager exactly when its BUYs
   * are worth at least 1.005 times their cost and at least one trade is
   * decided, with three wins or more for every loss.
   */
  lemma {:induction false} EdgeMeetsBar(reply: Option<seq<EdgeActivity>>, value: PriceLookup)
    requires EdgeOf(reply, value).Some?
    requires TotalsOf(Buys(reply.value), value).invested > 0.0
    ensures var t := TotalsOf(Buys(reply.value), value);
            MeetsBar(EdgeOf(reply, value).value) <==>
              t.current >= 1.005 * t.invested && t.wins + t.losses > 0 && t.wins >= 3 * t.losses
  {
    var t := TotalsOf(Buys(reply.value), value);
    RoiBar(t.current, t.invested);
    if t.wins + t.losses > 0 {
      WinRateBar(t.wins, t.losses);
    }
  }

  /** `feed(address, limit)`: the wallet's last `limit` activities, None when the request fails. */
  type ActivityFeed = (string, nat) -> Option<seq<EdgeActivity>>

  /** The record of a re-tested active wallet. */
  function Rechecked(info: WhaleRecord, edge: Option<Edge>, now: int): (r: WhaleRecord)
    requires IsActive(info)
    ensures IsActive(r) <==> edge.Some? && MeetsBar(edge.value)
    ensures IsActive(r) ==> r.roi >= MinRoi && r.winRate >= MinWinRate
  {
    if edge.None? || !MeetsBar(edge.value) then info.(status := Inactive)
    else info.(lastUpdated := Some(now), roi := edge.value.roi, winRate := edge.value.winRate)
  }

  /** The database after the pruning pass: each active wallet re-tested, the others as they were. */
  function Pruned(db: map<string, WhaleRecord>, feed: ActivityFeed, value: PriceLookup, now: int): (r: map<string, WhaleRecord>)
    ensures r.Keys == db.Keys
    ensures forall a :: a in r && IsActive(r[a]) ==> IsActive(db[a]) && r[a].roi >= MinRoi && r[a].winRate >= MinWinRate
  {
    map a | a in db :: if IsActive(db[a]) then Rechecked(db[a], EdgeOf(feed(a, RecheckLimit), value), now) else db[a]
  }

  /**
   * The pruning pass of `run_manager`: every active wallet is re-tested on
   * its last 30 trades and retired unless it meets both bars; inactive
   * wallets are not touched.
   */
  method PruneWhales(db: map<string, WhaleRecord>, keys: seq<string>, feed: ActivityFeed, value: PriceLookup, now: int)
    returns (pruned: map<string, WhaleRecord>)
    requires NoDuplicates(keys) && forall a :: a in keys <==> a in db
    ensures pruned.Keys == db.Keys
    ensures forall a :: a in db && !IsActive(db[a]) ==> pruned[a] == db[a]
    ensures forall a :: a in db && IsActive(db[a]) ==> pruned[a] == Rechecked(db[a], EdgeOf(feed(a, RecheckLimit), value), now)
    ensures forall a :: a in pruned && IsActive(pruned[a]) ==> IsActive(db[a]) && pruned[a].roi >= MinRoi && pruned[a].winRate >= MinWinRate
    ensures pruned == Pruned(db, feed, value, now)
  {
    pruned := db;
    var i := 0;
    while i < |keys|
      invariant 0 <= i <= |keys| && pruned.Keys == db.Keys
      invariant forall a :: a in db ==> pruned[a] == if a in keys[..i] then Pruned(db, feed, value, now)[a] else db[a]
    {
      var addr := keys[i];
      assert keys[..i + 1] == keys[..i] + [addr];
      assert addr !in keys[..i];
      pruned := RecheckOne(pruned, addr, feed, value, now);
      i := i + 1;
    }
    assert keys[..|keys|] == keys;
  }

  /** One wallet of the pruning pass: an active wallet is re-evaluated, any other left as it is. */
  method RecheckOne(db: map<string, WhaleRecord>, addr: string, feed: ActivityFeed, value: PriceLookup, now: int)
    returns (db': map<string, WhaleRecord>)
    requires addr in db
    ensures db' == db[addr := if IsActive(db[addr]) then Rechecked(db[addr], EdgeOf(feed(addr, RecheckLimit), value), now)
                              else db[addr]]
  {
    db' := db;
    var info := db[addr];
    if IsActive(info) {
      var result := EvaluateWhaleEdge(feed(addr, RecheckLimit), value);
      db' := db[addr := Rechecked(info, result, now)];
    }
  }

  /** A leaderboard entry: a wallet address (never empty) and its display name. */
  datatype Candidate = Candidate(address: string, name: string)

  /** The addresses of the candidates. */
  function Addresses(cs: seq<Candidate>): (r: set<string>)
    ensures forall a :: a in r <==> exists c :: c in cs && c.address == a
  {
    if |cs| == 0 then {}
    else
      var last := cs[|cs| - 1];
      assert forall c :: c in cs <==> c in cs[..|cs| - 1] || c == last;
      Addresses(cs[..|cs| - 1]) + {last.address}
  }

  /** The keys of a wallet database in insertion order, next to the records. */
  datatype Registry = Registry(records: map<string, WhaleRecord>, order: seq<string>)

  /** The fresh record of a candidate that passed with `edge`. */
  function NewWhale(cand: Candidate, edge: Edge, now: int): WhaleRecord
  {
    WhaleRecord(cand.name, Active, edge.winRate, edge.roi, None, None, Some(now), Some(now))
  }

  /** The discovery pass adds a candidate whose address is not active and whose last 50 trades meet both bars. */
  predicate Adds(records: map<string, WhaleRecord>, cand: Candidate, feed: ActivityFeed, value: PriceLookup)
  {
    !(cand.address in records && IsActive(records[cand.address])) &&
    EdgeOf(feed(cand.address, CandidateLimit), value).Some? && MeetsBar(EdgeOf(feed(cand.address, CandidateLimit), value).value)
  }

  /** One candidate of the discovery pass on the database. */
  function DiscoverStep(r: Registry, cand: Candidate, feed: ActivityFeed, value: PriceLookup, now: int): Registry
  {
    if Adds(r.records, cand, feed, value) then
      Registry(r.records[cand.address := NewWhale(cand, EdgeOf(feed(cand.address, CandidateLimit), value).value, now)],
               Insert(r.order, cand.address))
    else r
  }

  /** The discovery pass over `cands` in order. */
  function DiscoverAll(r: Registry, cands: seq<Candidate>, feed: ActivityFeed, value: PriceLookup, now: int): Registry
  {
    if |cands| == 0 then r
    else DiscoverStep(DiscoverAll(r, cands[..|cands| - 1], feed, value, now), cands[|cands| - 1], feed, value, now)
  }

  /** The number of candidates the discovery pass adds (`new_found`). */
  function AddedCount(r: Registry, cands: seq<Candidate>, feed: ActivityFeed, value: PriceLookup, now: int): (n: nat)
    ensures n <= |cands|
  {
    if |cands| == 0 then 0
    else
      var before := DiscoverAll(r, cands[..|cands| - 1], feed, value, now);
      AddedCount(r, cands[..|cands| - 1], feed, value, now) +
        (if Adds(before.records, cands[|cands| - 1], feed, value) then 1 else 0)
  }

  /**
   * One candidate of the discovery pass: skipped when its address is active,
   * otherwise tested on its last 50 trades and, when it meets both bars,
   * written as a fresh active record (replacing any retired one).
   */
  method DiscoverOne(found: map<string, WhaleRecord>, order: seq<string>, cand: Candidate,
                     feed: ActivityFeed, value: PriceLookup, now: int)
    returns (found': map<string, WhaleRecord>, order': seq<string>, added: bool)
    requires NoDuplicates(order) && forall a :: a in order <==> a in found
    ensures NoDuplicates(order') && (forall a :: a in order' <==> a in found')
    ensures added <==> Adds(found, cand, feed, value)
    ensures Registry(found', order') == DiscoverStep(Registry(found, order), cand, feed, value, now)
    ensures !added ==> found' == found && order' == order
    ensures added ==> found'.Keys == found.Keys + {cand.address} &&
                      (forall a :: a in found && a != cand.address ==> found'[a] == found[a]) &&
                      !(cand.address in found && IsActive(found[cand.address])) &&
                      IsActive(found'[cand.address]) && MeetsBar(Edge(found'[cand.address].roi, found'[cand.address].winRate, 0)) &&
                      found'[cand.address].addedAt == Some(now)
  {
    found', order', added := found, order, false;
    var addr := cand.address;
    if addr in found && IsActive(found[addr]) {
      return;
    }
    var result := EvaluateWhaleEdge(feed(addr, CandidateLimit), value);
    if result.Some? && MeetsBar(result.value) {
      found' := found[addr := WhaleRecord(cand.name, Active, result.value.winRate, result.value.roi,
                                          None, None, Some(now), Some(now))];
      order' := Insert(order, addr);
      added := true;
    }
  }

  /**
   * What the discovery pass keeps from `db` to `found` after seeing the
   * candidate addresses `addrs`: no wallet dropped, active wallets untouched,
   * every changed entry an active candidate, every newly active one above both bars.
   */
  ghost predicate Discovered(db: map<string, WhaleRecord>, found: map<string, WhaleRecord>, addrs: set<string>)
  {
    && db.Keys <= found.Keys
    && (forall a :: a in db && IsActive(db[a]) ==> found[a] == db[a])
    && (forall a :: a in found && !(a in db && found[a] == db[a]) ==> IsActive(found[a]) && a in addrs)
    && (forall a :: a in found && IsActive(found[a]) && !(a in db && IsActive(db[a])) ==>
          found[a].roi >= MinRoi && found[a].winRate >= MinWinRate)
  }

  /** One `DiscoverOne` step keeps `Discovered`, with the candidate's address seen. */
  lemma DiscoveredStep(db: map<string, WhaleRecord>, found: map<string, WhaleRecord>, found': map<string, WhaleRecord>,
                       addrs: set<string>, cand: Candidate, added: bool, now: int)
    requires Discovered(db, found, addrs)
    requires !added ==> found' == found
    requires added ==> found'.Keys == found.Keys + {cand.address} &&
                       (forall a :: a in found && a != cand.address ==> found'[a] == found[a]) &&
                       !(cand.address in found && IsActive(found[cand.address])) &&
                       IsActive(found'[cand.address]) && MeetsBar(Edge(found'[cand.address].roi, found'[cand.address].winRate, 0))
    ensures Discovered(db, found', addrs + {cand.address})
  {
    if added {
      var c := cand.address;
      forall a | a in found' && !(a in db && found'[a] == db[a])
        ensures IsActive(found'[a]) && a in addrs + {c}
      {
        if a != c {
          assert found'[a] == found[a];
        }
      }
      forall a | a in found' && IsActive(found'[a]) && !(a in db && IsActive(db[a]))
        ensures found'[a].roi >= MinRoi && found'[a].winRate >= MinWinRate
      {
        if a != c {
          assert found'[a] == found[a];
        }
      }
    }
  }

  /** Appending one candidate adds exactly its address. */
  lemma AddressesSnoc(cs: seq<Candidate>, c: Candidate)
    ensures Addresses(cs + [c]) == Addresses(cs) + {c.address}
  {
    assert (cs + [c])[..|cs|] == cs;
  }

  /** Discovering one more candidate is one more `DiscoverStep`, counted when it adds. */
  lemma DiscoverAllSnoc(r: Registry, cs: seq<Candidate>, c: Candidate, feed: ActivityFeed, value: PriceLookup, now: int)
    ensures DiscoverAll(r, cs + [c], feed, value, now) == DiscoverStep(DiscoverAll(r, cs, feed, value, now), c, feed, value, now)
    ensures AddedCount(r, cs + [c], feed, value, now) ==
            AddedCount(r, cs, feed, value, now) + (if Adds(DiscoverAll(r, cs, feed, value, now).records, c, feed, value) then 1 else 0)
  {
    assert (cs + [c])[..|cs|] == cs;
  }

  /** The discovery pass of `run_manager` over the leaderboard candidates in order. */
  method DiscoverWhales(db: map<string, WhaleRecord>, keys: seq<string>, candidates: seq<Candidate>,
                        feed: ActivityFeed, value: PriceLookup, now: int)
    returns (found: map<string, WhaleRecord>, order: seq<string>, newFound: nat)
    requires NoDuplicates(keys) && forall a :: a in keys <==> a in db
    ensures NoDuplicates(order) && (forall a :: a in order <==> a in found)
    ensures db.Keys <= found.Keys && newFound <= |candidates|
    ensures forall a :: a in db && IsActive(db[a]) ==> found[a] == db[a]
    ensures forall a :: a in found && !(a in db && found[a] == db[a]) ==>
              IsActive(found[a]) && a in Addresses(candidates)
    ensures forall a :: a in found && IsActive(found[a]) && !(a in db && IsActive(db[a])) ==>
              found[a].roi >= MinRoi && found[a].winRate >= MinWinRate
    ensures Registry(found, order) == DiscoverAll(Registry(db, keys), candidates, feed, value, now)
    ensures newFound == AddedCount(Registry(db, keys), candidates, feed, value, now)
  {
    found := db;
    order := keys;
    newFound := 0;
    var i := 0;
    while i < |candidates|
      invariant 0 <= i <= |candidates| && newFound <= i
      invariant NoDuplicates(order) && (forall a :: a in order <==> a in found)
      invariant Discovered(db, found, Addresses(candidates[..i]))
      invariant Registry(found, order) == DiscoverAll(Registry(db, keys), candidates[..i], feed, value, now)
      invariant newFound == AddedCount(Registry(db, keys), candidates[..i], feed, value, now)
    {
      assert candidates[..i + 1] == candidates[..i] + [candidates[i]];
      AddressesSnoc(candidates[..i], candidates[i]);
      DiscoverAllSnoc(Registry(db, keys), candidates[..i], candidates[i], feed, value, now);
      var found', order', added := DiscoverOne(found, order, candidates[i], feed, value, now);
      DiscoveredStep(db, found, found', Addresses(candidates[..i]), candidates[i], added, now);
      found, order := found', order';
      if added {
        newFound := newFound + 1;
      }
      i := i + 1;
    }
    assert candidates[..|candidates|] == candidates;
  }

  /**
   * `run_manager` without the database file: prune, read the top
   * `LeaderboardLimit` wallets of the leaderboard pages `page`, then discover
   * among them. Afterwards every active wallet meets both bars, and no wallet
   * is ever removed.
   */
  method RunManager(db: map<string, WhaleRecord>, keys: seq<string>, page: nat -> Option<seq<LeaderItem>>,
                    feed: ActivityFeed, value: PriceLookup, now: int)
    returns (updated: map<string, WhaleRecord>, order: seq<string>)
    requires NoDuplicates(keys) && forall a :: a in keys <==> a in db
    ensures NoDuplicates(order) && (forall a :: a in order <==> a in updated) && db.Keys <= updated.Keys
    ensures forall a :: a in updated && IsActive(updated[a]) ==> updated[a].roi >= MinRoi && updated[a].winRate >= MinWinRate
    ensures forall a :: a in db && !IsActive(db[a]) && a !in Addresses(Leaderboard(LeaderboardLimit, page)) ==>
              updated[a] == db[a]
    ensures Registry(updated, order) ==
              DiscoverAll(Registry(Pruned(db, feed, value, now), keys), Leaderboard(LeaderboardLimit, page), feed, value, now)
  {
    var pruned := PruneWhales(db, keys, feed, value, now);
    var candidates, _ := FetchTopLeaderboard(LeaderboardLimit, page);
    var newFound;
    updated, order, newFound := DiscoverWhales(pruned, keys, candidates, feed, value, now);
  }

  /** One leaderboard row: the wallet under either of two keys, and an optional user name. */
  datatype LeaderItem = LeaderItem(proxyWallet: string, address: string, userName: Option<string>)

  /** The candidate of a leaderboard row: its proxy wallet, else its address, named "Unknown" without a user name. */
  function RowCandidate(row: LeaderItem): Option<Candidate>
  {
    var addr := if row.proxyWallet != "" then row.proxyWallet else row.address;
    if addr == "" then None else Some(Candidate(addr, row.userName.GetOr("Unknown")))
  }

  /** The candidates of the rows of one page, in order. */
  function RowCandidates(rows: seq<LeaderItem>): (r: seq<Candidate>)
    ensures forall w :: w in r ==> w.address != ""
    ensures |r| <= |rows|
  {
    if |rows| == 0 then []
    else
      var last := RowCandidate(rows[|rows| - 1]);
      RowCandidates(rows[..|rows| - 1]) + (if last.Some? then [last.value] else [])
  }

  /**
   * The candidates of the pages at `offset`, `offset + 50`, ... below
   * `limit`, up to the first empty or failed page.
   */
  function PagesFrom(limit: nat, page: nat -> Option<seq<LeaderItem>>, offset: nat): (r: seq<Candidate>)
    ensures forall w :: w in r ==> w.address != ""
    decreases limit - offset
  {
    if offset >= limit then []
    else
      var items := page(offset);
      if items.None? || |items.value| == 0 then []
      else RowCandidates(items.value) + PagesFrom(limit, page, offset + BatchSize)
  }

  /** `fetch_top_leaderboard`: the candidates of the pages, cut to `limit`. */
  function Leaderboard(limit: nat, page: nat -> Option<seq<LeaderItem>>): (r: seq<Candidate>)
    ensures |r| <= limit
    ensures forall w :: w in r ==> w.address != ""
    ensures |r| <= |PagesFrom(limit, page, 0)| && r == PagesFrom(limit, page, 0)[..|r|]
  {
    var all := PagesFrom(limit, page, 0);
    if |all| <= limit then all else all[..limit]
  }

  /** A first page that fails or is empty gives no candidates at all. */
  lemma EmptyFirstPage(limit: nat, page: nat -> Option<seq<LeaderItem>>)
    requires limit > 0 && (page(0).None? || |page(0).value| == 0)
    ensures Leaderboard(limit, page) == []
  {
  }

  /** A non-empty page below `limit` contributes its rows and hands on to the next offset. */
  lemma NextPage(limit: nat, page: nat -> Option<seq<LeaderItem>>, offset: nat, prefix: seq<Candidate>)
    requires offset < limit && page(offset).Some? && |page(offset).value| > 0
    ensures prefix + PagesFrom(limit, page, offset) ==
            (prefix + RowCandidates(page(offset).value)) + PagesFrom(limit, page, offset + BatchSize)
  {
  }

  /**
   * One request of `fetch_top_leaderboard` at `offset`: an empty or failed
   * page stops the scan, any other adds its candidates and moves on by 50.
   */
  method FetchPage(limit: nat, page: nat -> Option<seq<LeaderItem>>, offset: nat, all: seq<Candidate>)
    returns (all': seq<Candidate>, offset': nat, stopped: bool)
    requires offset < limit
    ensures stopped ==> offset' == offset && all' == all && all + PagesFrom(limit, page, offset) == all
    ensures !stopped ==> (offset' == offset + BatchSize &&
                          all' + PagesFrom(limit, page, offset') == all + PagesFrom(limit, page, offset))
  {
    var items := page(offset);
    if items.None? || |items.value| == 0 {
      all', offset', stopped := all, offset, true;
      assert PagesFrom(limit, page, offset) == [];
    } else {
      var found := PageCandidates(items.value);
      NextPage(limit, page, offset, all);
      all', offset', stopped := all + found, offset + BatchSize, false;
    }
  }

  /** The rows of one page turned into candidates, in order. */
  method PageCandidates(rows: seq<LeaderItem>) returns (found: seq<Candidate>)
    ensures found == RowCandidates(rows)
  {
    found := [];
    var k := 0;
    while k < |rows|
      invariant 0 <= k <= |rows|
      invariant found == RowCandidates(rows[..k])
    {
      assert rows[..k + 1][..k] == rows[..k];
      var addr := if rows[k].proxyWallet != "" then rows[k].proxyWallet else rows[k].address;
      if addr != "" {
        found := found + [Candidate(addr, rows[k].userName.GetOr("Unknown"))];
      }
      k := k + 1;
    }
    assert rows[..|rows|] == rows;
  }

  /**
   * `fetch_top_leaderboard`: pages of 50 at offsets 0, 50, ... below
   * `limit`, stopping at the first empty or failed page; rows without an
   * address are dropped and the result is cut to `limit`. `page(offset)` is
   * the decoded row list, None when the request fails.
   */
  method FetchTopLeaderboard(limit: nat, page: nat -> Option<seq<LeaderItem>>)
    returns (whales: seq<Candidate>, ghost pages: nat)
    ensures whales == Leaderboard(limit, page)
    ensures |whales| <= limit
    ensures forall w :: w in whales ==> w.address != ""
    ensures pages * BatchSize < limit + BatchSize
  {
    var all: seq<Candidate> := [];
    var offset: nat := 0;
    var stopped := false;
    pages := 0;
    while offset < limit && !stopped
      invariant (if stopped then offset + BatchSize else offset) == pages * BatchSize
      invariant pages * BatchSize < limit + BatchSize
      invariant stopped ==> offset < limit
      invariant stopped ==> all == PagesFrom(limit, page, 0)
      invariant !stopped ==> all + PagesFrom(limit, page, offset) == PagesFrom(limit, page, 0)
      decreases limit - offset, if stopped then 0 else 1
    {
      all, offset, stopped := FetchPage(limit, page, offset, all);
      pages := pages + 1;
    }
    whales := if |all| <= limit then all else all[..limit];
  }
}
