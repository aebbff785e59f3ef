// The venue client: settlement look-ups over a decoded market record,
// discovery of the current up/down markets by time-block slug, limit-order
// argument handling, and the balance query with its retries.  Every network
// answer is a parameter.
module ClientWrapper {
  import opened Numerics
  import opened Wrappers
  import opened Text

  // ---------------------------------------------------------------------
  // Winner look-up.

  const YesKeys: seq<string> := ["YES", "UP", "ABOVE", "HIGH"]
  const NoKeys: seq<string> := ["NO", "DOWN", "BELOW", "LOW"]

  /**
   * `normalize_outcome`: an empty outcome gives None; an outcome naming a
   * rise gives "YES", else one naming a fall gives "NO", else the
   * upper-cased text.
   */
  function NormalizeOutcome(raw: string): (r: Option<string>)
    ensures r.None? <==> |raw| == 0
  {
    if |raw| == 0 then None
    else
      var res := Upper(raw);
      if ContainsAny(res, YesKeys) then Some("YES")
      else if ContainsAny(res, NoKeys) then Some("NO")
      else Some(res)
  }

  lemma ContainsItself(s: string)
    ensures Contains(s, s)
  {
    assert s[..|s|] == s;
  }

  /** "NO" mentions none of the rise keywords, "YES" contains "YES". */
  lemma KeywordFacts()
    ensures ContainsAny("YES", YesKeys)
    ensures !ContainsAny("NO", YesKeys)
    ensures ContainsAny("NO", NoKeys)
  {
    ContainsItself("YES");
    ContainsItself("NO");
    assert "YES" in YesKeys && "NO" in NoKeys;
    forall k | k in YesKeys
      ensures !Contains("NO", k)
    {
      assert |k| >= 2 && k[0] != 'N';
      assert !StartsWith("NO", k);
      assert !StartsWith("O", k) && !StartsWith("", k);
      assert "NO"[1..] == "O" && "O"[1..] == "";
    }
  }

  /** Normalising is idempotent: a normalised outcome normalises to itself. */
  lemma {:induction false} NormalizeOutcomeIdempotent(raw: string)
    requires NormalizeOutcome(raw).Some?
    ensures NormalizeOutcome(NormalizeOutcome(raw).value) == NormalizeOutcome(raw)
  {
    var res := Upper(raw);
    KeywordFacts();
    assert Upper("YES") == "YES" && Upper("NO") == "NO";
    UpperIdempotent(raw);
  }

  /** A token of the `tokens` array: its outcome, its winner flag and its (parsable) price. */
  datatype Token = Token(outcome: string, winner: bool, price: Option<real>)

  /**
   * A decoded market record.  A field that does not decode to a list is
   * None; a price entry that does not parse as a number is None; a missing
   * winner outcome is "".
   */
  datatype MarketInfo = MarketInfo(prices: Option<seq<Option<real>>>, outcomes: Option<seq<string>>,
                                   winnerOutcome: string, tokens: Option<seq<Token>>)

  predicate SettledPrice(p: Option<real>)
  {
    p.Some? && p.value > 0.99
  }

  /** The first index from `i` on whose price is above 0.99 and that has an outcome entry. */
  function FirstSettled(prices: seq<Option<real>>, nOutcomes: nat, i: nat): (r: Option<nat>)
    requires i <= |prices|
    ensures r.Some? ==> i <= r.value < |prices| && r.value < nOutcomes && SettledPrice(prices[r.value])
    ensures r.Some? ==> forall j :: i <= j < r.value ==> !(SettledPrice(prices[j]) && j < nOutcomes)
    ensures r.None? ==> forall j :: i <= j < |prices| ==> !(SettledPrice(prices[j]) && j < nOutcomes)
    decreases |prices| - i
  {
    if i == |prices| then None
    else if SettledPrice(prices[i]) && i < nOutcomes then Some(i)
    else FirstSettled(prices, nOutcomes, i + 1)
  }

  predicate WinningToken(t: Token)
  {
    t.winner || SettledPrice(t.price)
  }

  /** The first token flagged as winner or priced above 0.99. */
  function FirstWinningToken(tokens: seq<Token>, i: nat): (r: Option<nat>)
    requires i <= |tokens|
    ensures r.Some? ==> i <= r.value < |tokens| && WinningToken(tokens[r.value])
    ensures r.Some? ==> forall j :: i <= j < r.value ==> !WinningToken(tokens[j])
    ensures r.None? ==> forall j :: i <= j < |tokens| ==> !WinningToken(tokens[j])
    decreases |tokens| - i
  {
    if i == |tokens| then None
    else if WinningToken(tokens[i]) then Some(i)
    else FirstWinningToken(tokens, i + 1)
  }

  function SettledIndex(mk: MarketInfo): Option<nat>
  {
    if mk.prices.Some? && mk.outcomes.Some? then FirstSettled(mk.prices.value, |mk.outcomes.value|, 0) else None
  }

  function WinningTokenIndex(mk: MarketInfo): Option<nat>
  {
    if mk.tokens.Some? then FirstWinningToken(mk.tokens.value, 0) else None
  }

  /**
   * `get_market_winner` over the decoded reply; a reply of None is a
   * non-200 status or a failed request.
   */
  function GetMarketWinner(reply: Option<MarketInfo>): (r: Option<string>)
    ensures reply.None? ==> r.None?
  {
    match reply
    case None => None
    case Some(mk) =>
      match SettledIndex(mk)
      case Some(i) => NormalizeOutcome(mk.outcomes.value[i])
      case None =>
        if |mk.winnerOutcome| > 0 then NormalizeOutcome(mk.winnerOutcome)
        else
          match WinningTokenIndex(mk)
          case Some(k) => NormalizeOutcome(mk.tokens.value[k].outcome)
          case None => Some("WAITING")
  }

  /** A settled price decides the winner whatever the winner field and the tokens say. */
  lemma PricesTakePriority(mk: MarketInfo, winnerOutcome: string, tokens: Option<seq<Token>>)
    requires SettledIndex(mk).Some?
    ensures GetMarketWinner(Some(mk)) == GetMarketWinner(Some(mk.(winnerOutcome := winnerOutcome, tokens := tokens)))
    ensures GetMarketWinner(Some(mk)) == NormalizeOutcome(mk.outcomes.value[SettledIndex(mk).value])
  {
  }

  /** Without a settled price, a winner field decides whatever the tokens say. */
  lemma WinnerFieldBeforeTokens(mk: MarketInfo, tokens: Option<seq<Token>>)
    requires SettledIndex(mk).None? && |mk.winnerOutcome| > 0
    ensures GetMarketWinner(Some(mk)) == GetMarketWinner(Some(mk.(tokens := tokens)))
    ensures GetMarketWinner(Some(mk)) == NormalizeOutcome(mk.winnerOutcome)
  {
  }

  /** With no evidence of settlement the market is still waiting. */
  lemma WaitingWithoutEvidence(mk: MarketInfo)
    requires mk.prices.Some? && mk.outcomes.Some? ==>
               forall j :: 0 <= j < |mk.prices.value| && j < |mk.outcomes.value| ==> !SettledPrice(mk.prices.value[j])
    requires |mk.winnerOutcome| == 0
    requires mk.tokens.Some? ==> forall j :: 0 <= j < |mk.tokens.value| ==> !WinningToken(mk.tokens.value[j])
    ensures GetMarketWinner(Some(mk)) == Some("WAITING")
  {
  }

  /** An "Up"/"Down" market settled at [1, 0] resolves to YES. */
  lemma UpDownExample()
    ensures GetMarketWinner(Some(MarketInfo(Some([Some(1.0), Some(0.0)]), Some(["Up", "Down"]), "", None))) == Some("YES")
  {
    var mk := MarketInfo(Some([Some(1.0), Some(0.0)]), Some(["Up", "Down"]), "", None);
    assert SettledIndex(mk) == Some(0);
    assert Upper("Up") == "UP";
    ContainsItself("UP");
    assert "UP" in YesKeys;
  }

  // ---------------------------------------------------------------------
  // Market discovery.

  /** `math.floor(now / interval) * interval`: the start of the current block. */
  function BlockStart(now: nat, interval: nat): (b: nat)
    requires interval > 0
    ensures b <= now < b + interval
  {
    BlockArithmetic(now, interval);
    (now / interval) * interval
  }

  lemma BlockArithmetic(now: nat, interval: nat)
    requires interval > 0
    ensures (now / interval) * interval <= now < (now / interval) * interval + interval
  {
    var q := now / interval;
    assert now == q * interval + now % interval;
  }

  /** The block start is the only multiple of the interval within one interval below `now`. */
  lemma {:induction false} BlockStartUnique(now: nat, interval: nat, k: nat)
    requires interval > 0 && k * interval <= now < k * interval + interval
    ensures k * interval == BlockStart(now, interval)
  {
    var q := now / interval;
    BlockArithmetic(now, interval);
    if k < q {
      MulStep(k, q, interval);
    } else if k > q {
      MulStep(q, k, interval);
    }
  }

  /** Between two different multiples of c lies at least c. */
  lemma MulStep(a: nat, b: nat, c: nat)
    requires a < b
    ensures a * c + c <= b * c
  {
    var d := b - a - 1;
    assert b * c == a * c + c + d * c;
  }

  function DigitChar(d: nat): char
    requires d < 10
  {
    "0123456789"[d]
  }

  /** Decimal text of a natural number. */
  function NatToString(n: nat): (s: string)
    ensures |s| >= 1
    decreases n
  {
    if n < 10 then [DigitChar(n)] else NatToString(n / 10) + [DigitChar(n % 10)]
  }

  /** `f"{slug_prefix}-{current_block}"`. */
  function Slug(prefix: string, block: nat): string
  {
    prefix + "-" + NatToString(block)
  }

  /** The four series hunted by slug, with their block lengths in seconds. */
  const HuntList: seq<(string, nat)> := [("btc-updown-5m", 300), ("btc-updown-15m", 900),
                                         ("eth-updown-15m", 900), ("sol-updown-15m", 900)]

  /** A market of a decoded event; its token ids are already decoded from JSON text. */
  datatype RawMarket = RawMarket(question: string, id: string, conditionId: string, tokenIds: seq<string>, endTime: int)

  datatype Event = Event(title: string, slug: string, markets: seq<RawMarket>)

  /** An entry of the list `find_active_markets` returns. */
  datatype Market = Market(question: string, marketId: string, conditionId: string, tokenIds: seq<string>,
                           slug: string, endTime: int)

  predicate HasId(found: seq<Market>, id: string)
  {
    exists k :: 0 <= k < |found| && found[k].marketId == id
  }

  /** The entries one hunted reply contributes: its markets with token ids, in order. */
  function HuntedMarkets(markets: seq<RawMarket>, slug: string, endTime: int): seq<Market>
  {
    if |markets| == 0 then []
    else
      var m := markets[|markets| - 1];
      HuntedMarkets(markets[..|markets| - 1], slug, endTime) +
        (if |m.tokenIds| > 0 then [Market(m.question, m.id, m.conditionId, m.tokenIds, slug, endTime)] else [])
  }

  /** A hunted series: a slug prefix and a positive block length in seconds. */
  predicate IsSeries(series: (string, nat))
  {
    series.1 > 0
  }

  lemma HuntListSeries()
    ensures forall k :: 0 <= k < |HuntList| ==> IsSeries(HuntList[k])
  {
  }

  /** The slug of the series' current block. */
  function SeriesSlug(now: nat, series: (string, nat)): string
    requires IsSeries(series)
  {
    Slug(series.0, BlockStart(now, series.1))
  }

  /** The end of the series' current block. */
  function SeriesEnd(now: nat, series: (string, nat)): int
    requires IsSeries(series)
  {
    BlockStart(now, series.1) + series.1
  }

  /** What the hunt of one series contributes: the markets with token ids of the reply to its slug. */
  function SeriesMarkets(now: nat, huntReply: string -> Option<seq<RawMarket>>, series: (string, nat)): seq<Market>
    requires IsSeries(series)
  {
    var reply := huntReply(SeriesSlug(now, series));
    if reply.Some? then HuntedMarkets(reply.value, SeriesSlug(now, series), SeriesEnd(now, series)) else []
  }

  /** What the slug hunt over the first `h` series of `HuntList` collects, series by series. */
  function Hunted(now: nat, huntReply: string -> Option<seq<RawMarket>>, h: nat): seq<Market>
    requires h <= |HuntList|
  {
    HuntListSeries();
    if h == 0 then [] else Hunted(now, huntReply, h - 1) + SeriesMarkets(now, huntReply, HuntList[h - 1])
  }

  /** The scan of one event's markets after `prior`: a market with token ids and a new id is appended. */
  function ScannedMarkets(prior: seq<Market>, markets: seq<RawMarket>, slug: string): seq<Market>
  {
    if |markets| == 0 then prior
    else
      var acc := ScannedMarkets(prior, markets[..|markets| - 1], slug);
      var m := markets[|markets| - 1];
      if !HasId(acc, m.id) && |m.tokenIds| > 0 then acc + [Market(m.question, m.id, m.conditionId, m.tokenIds, slug, m.endTime)]
      else acc
  }

  /** An event the global scan looks into: its upper-cased title names BTC, ETH or SOL. */
  predicate Scans(ev: Event)
  {
    ContainsAny(Upper(ev.title), ["BTC", "ETH", "SOL"])
  }

  /** The global scan over `events` after `prior`. */
  function Scanned(prior: seq<Market>, events: seq<Event>): seq<Market>
  {
    if |events| == 0 then prior
    else
      var acc := Scanned(prior, events[..|events| - 1]);
      var ev := events[|events| - 1];
      if Scans(ev) then ScannedMarkets(acc, ev.markets, ev.slug) else acc
  }

  /** The list `find_active_markets` returns: the hunt, then the scan only when fewer than 2 were hunted. */
  function ActiveMarkets(now: nat, huntReply: string -> Option<seq<RawMarket>>, scanReply: Option<seq<Event>>): seq<Market>
  {
    var hunted := Hunted(now, huntReply, |HuntList|);
    if |hunted| < 2 && scanReply.Some? then Scanned(hunted, scanReply.value) else hunted
  }

  /** A hunted reply contributes exactly its markets with token ids, stamped with the slug and end time. */
  lemma {:induction false} HuntedMarketsMembers(markets: seq<RawMarket>, slug: string, endTime: int)
    ensures forall x :: x in HuntedMarkets(markets, slug, endTime) <==>
              exists m :: m in markets && |m.tokenIds| > 0 &&
                          x == Market(m.question, m.id, m.conditionId, m.tokenIds, slug, endTime)
  {
    if |markets| > 0 {
      var init := markets[..|markets| - 1];
      HuntedMarketsMembers(init, slug, endTime);
      assert markets == init + [markets[|markets| - 1]];
    }
  }

  /** Every market with token ids in the reply to a hunted slug is in the hunt's result. */
  lemma {:induction false} HuntedIncludes(now: nat, huntReply: string -> Option<seq<RawMarket>>, h: nat, o: nat, m: RawMarket)
    requires o < h <= |HuntList|
    requires var slug := Slug(HuntList[o].0, BlockStart(now, HuntList[o].1));
             huntReply(slug).Some? && m in huntReply(slug).value && |m.tokenIds| > 0
    ensures var block := BlockStart(now, HuntList[o].1);
            Market(m.question, m.id, m.conditionId, m.tokenIds, Slug(HuntList[o].0, block), block + HuntList[o].1)
              in Hunted(now, huntReply, h)
  {
    HuntListSeries();
    var series := HuntList[o];
    if o == h - 1 {
      var slug := SeriesSlug(now, series);
      HuntedMarketsMembers(huntReply(slug).value, slug, SeriesEnd(now, series));
      assert Market(m.question, m.id, m.conditionId, m.tokenIds, slug, SeriesEnd(now, series))
               in SeriesMarkets(now, huntReply, series);
    } else {
      HuntedIncludes(now, huntReply, h - 1, o, m);
    }
  }

  /** Every hunted entry has token ids and the slug and end time of the current block of a hunted series. */
  lemma {:induction false} HuntedShape(now: nat, huntReply: string -> Option<seq<RawMarket>>, h: nat)
    requires h <= |HuntList|
    ensures forall x :: x in Hunted(now, huntReply, h) ==>
              |x.tokenIds| > 0 &&
              exists o :: 0 <= o < h &&
                          x.slug == Slug(HuntList[o].0, BlockStart(now, HuntList[o].1)) &&
                          x.endTime == BlockStart(now, HuntList[o].1) + HuntList[o].1 &&
                          now < x.endTime <= now + HuntList[o].1
  {
    if h > 0 {
      HuntListSeries();
      HuntedShape(now, huntReply, h - 1);
      var series := HuntList[h - 1];
      var slug := SeriesSlug(now, series);
      if huntReply(slug).Some? {
        HuntedMarketsMembers(huntReply(slug).value, slug, SeriesEnd(now, series));
      }
    }
  }

  /**
   * Scanning one event keeps what was found before it, appends only markets
   * of the event with token ids and an id not yet found, repeats no id among
   * the appended ones, and leaves no market with token ids unfound.
   */
  lemma {:induction false} ScannedMarketsEffect(prior: seq<Market>, markets: seq<RawMarket>, slug: string)
    ensures var r := ScannedMarkets(prior, markets, slug);
            |prior| <= |r| && r[..|prior|] == prior &&
            (forall k :: |prior| <= k < |r| ==>
               !HasId(r[..k], r[k].marketId) &&
               exists m :: m in markets && |m.tokenIds| > 0 &&
                           r[k] == Market(m.question, m.id, m.conditionId, m.tokenIds, slug, m.endTime)) &&
            (forall m :: m in markets && |m.tokenIds| > 0 ==> HasId(r, m.id))
  {
    if |markets| > 0 {
      var init := markets[..|markets| - 1];
      var acc := ScannedMarkets(prior, init, slug);
      var m := markets[|markets| - 1];
      ScannedMarketsEffect(prior, init, slug);
      assert markets == init + [m];
      var r := ScannedMarkets(prior, markets, slug);
      if !HasId(acc, m.id) && |m.tokenIds| > 0 {
        assert r[..|acc|] == acc;
        forall k | |prior| <= k < |acc|
          ensures r[..k] == acc[..k] && r[k] == acc[k]
        {
        }
        assert r[..|prior|] == acc[..|prior|];
        HasIdExtends(acc, r);
        assert r[|acc|].marketId == m.id;
      }
    }
  }

  /** An id found in a prefix is found in the whole list. */
  lemma HasIdExtends(a: seq<Market>, b: seq<Market>)
    requires |a| <= |b| && b[..|a|] == a
    ensures forall id :: HasId(a, id) ==> HasId(b, id)
  {
    forall id | HasId(a, id)
      ensures HasId(b, id)
    {
      var k :| 0 <= k < |a| && a[k].marketId == id;
      assert b[k] == a[k];
    }
  }

  /**
   * The global scan keeps the hunted list as its prefix, appends only
   * markets with token ids of events whose title names a coin, never an id
   * already found, and leaves no such market with token ids unfound.
   */
  lemma {:induction false} ScannedEffect(prior: seq<Market>, events: seq<Event>)
    ensures var r := Scanned(prior, events);
            |prior| <= |r| && r[..|prior|] == prior &&
            (forall k :: |prior| <= k < |r| ==>
               !HasId(r[..k], r[k].marketId) &&
               exists e, m :: 0 <= e < |events| && Scans(events[e]) && m in events[e].markets &&
                              |m.tokenIds| > 0 &&
                              r[k] == Market(m.question, m.id, m.conditionId, m.tokenIds, events[e].slug, m.endTime)) &&
            (forall e, m :: 0 <= e < |events| && Scans(events[e]) && m in events[e].markets && |m.tokenIds| > 0 ==>
               HasId(r, m.id))
  {
    if |events| > 0 {
      var init := events[..|events| - 1];
      var acc := Scanned(prior, init);
      var ev := events[|events| - 1];
      ScannedEffect(prior, init);
      var r := Scanned(prior, events);
      assert forall e :: 0 <= e < |init| ==> events[e] == init[e];
      if Scans(ev) {
        ScannedMarketsEffect(acc, ev.markets, ev.slug);
        assert r[..|prior|] == acc[..|prior|];
        forall k | |prior| <= k < |acc|
          ensures r[..k] == acc[..k] && r[k] == acc[k]
        {
        }
        HasIdExtends(acc, r);
        forall k | |acc| <= k < |r|
          ensures exists e, m :: 0 <= e < |events| && Scans(events[e]) && m in events[e].markets &&
                                 |m.tokenIds| > 0 &&
                                 r[k] == Market(m.question, m.id, m.conditionId, m.tokenIds, events[e].slug, m.endTime)
        {
          assert events[|events| - 1] == ev;
        }
      }
    }
  }

  /**
   * `find_active_markets`.  `huntReply(slug)` is the market list of the
   * first event found for a slug (None when the request fails or finds
   * nothing); `scanReply` is the decoded global scan (None when it fails).
   * The ghost `origin` names the hunted series of each hunted entry.
   */
  method FindActiveMarkets(now: nat, huntReply: string -> Option<seq<RawMarket>>, scanReply: Option<seq<Event>>)
    returns (found: seq<Market>, ghost huntCount: nat, ghost origin: seq<nat>)
    ensures huntCount <= |found| && |origin| == huntCount
    ensures forall k :: 0 <= k < |found| ==> |found[k].tokenIds| > 0
    ensures forall k :: 0 <= k < huntCount ==>
              origin[k] < |HuntList| &&
              found[k].slug == Slug(HuntList[origin[k]].0, BlockStart(now, HuntList[origin[k]].1)) &&
              found[k].endTime == BlockStart(now, HuntList[origin[k]].1) + HuntList[origin[k]].1 &&
              now < found[k].endTime <= now + HuntList[origin[k]].1
    ensures huntCount >= 2 ==> |found| == huntCount
    ensures forall j, k :: 0 <= j < k < |found| && huntCount <= k ==> found[j].marketId != found[k].marketId
    ensures found == ActiveMarkets(now, huntReply, scanReply)
  {
    found, origin := HuntSeries(now, huntReply);
    huntCount := |found|;
    assert Stamped(now, found, origin, |HuntList|);
    if |found| < 2 && scanReply.Some? {
      ghost var hunted := found;
      found := ScanEvents(found, scanReply.value);
      assert forall k :: 0 <= k < huntCount ==> found[k] == hunted[k];
    }
  }

  /**
   * Each entry of `found` has token ids, and `origin` names a series below
   * `h` whose current block gives the entry its slug and end time.
   */
  ghost predicate Stamped(now: nat, found: seq<Market>, origin: seq<nat>, h: nat)
  {
    |origin| == |found| &&
    forall k :: 0 <= k < |found| ==>
      |found[k].tokenIds| > 0 && origin[k] < h && h <= |HuntList| &&
      found[k].slug == Slug(HuntList[origin[k]].0, BlockStart(now, HuntList[origin[k]].1)) &&
      found[k].endTime == BlockStart(now, HuntList[origin[k]].1) + HuntList[origin[k]].1 &&
      now < found[k].endTime <= now + HuntList[origin[k]].1
  }

  /** Appending the entries of series `h` keeps the hunted list stamped. */
  lemma StampedAppend(now: nat, found: seq<Market>, origin: seq<nat>, h: nat, added: seq<Market>)
    requires h < |HuntList| && Stamped(now, found, origin, h)
    requires forall k :: 0 <= k < |added| ==>
               |added[k].tokenIds| > 0 && added[k].slug == Slug(HuntList[h].0, BlockStart(now, HuntList[h].1)) &&
               added[k].endTime == BlockStart(now, HuntList[h].1) + HuntList[h].1
    ensures var tags: seq<nat> := seq(|added|, _ => h); Stamped(now, found + added, origin + tags, h + 1)
  {
    var tags: seq<nat> := seq(|added|, _ => h);
    var found', origin' := found + added, origin + tags;
    forall k | 0 <= k < |found'|
      ensures |found'[k].tokenIds| > 0 && origin'[k] < h + 1 &&
              found'[k].slug == Slug(HuntList[origin'[k]].0, BlockStart(now, HuntList[origin'[k]].1)) &&
              found'[k].endTime == BlockStart(now, HuntList[origin'[k]].1) + HuntList[origin'[k]].1 &&
              now < found'[k].endTime <= now + HuntList[origin'[k]].1
    {
      if k < |found| {
        assert found'[k] == found[k] && origin'[k] == origin[k];
      } else {
        assert found'[k] == added[k - |found|] && origin'[k] == h;
      }
    }
  }

  /** The slug hunt of `find_active_markets`, series by series; `origin` names each entry's series. */
  method HuntSeries(now: nat, huntReply: string -> Option<seq<RawMarket>>)
    returns (found: seq<Market>, ghost origin: seq<nat>)
    ensures found == Hunted(now, huntReply, |HuntList|)
    ensures Stamped(now, found, origin, |HuntList|)
  {
    found := [];
    origin := [];
    var h := 0;
    while h < |HuntList|
      invariant 0 <= h <= |HuntList|
      invariant found == Hunted(now, huntReply, h)
      invariant Stamped(now, found, origin, h)
    {
      found, origin := HuntOne(now, huntReply, h, found, origin);
      h := h + 1;
    }
  }

  /** One series of the hunt: the markets of the reply to its slug are appended. */
  method HuntOne(now: nat, huntReply: string -> Option<seq<RawMarket>>, h: nat, found: seq<Market>, ghost origin: seq<nat>)
    returns (found': seq<Market>, ghost origin': seq<nat>)
    requires h < |HuntList| && Stamped(now, found, origin, h)
    ensures found' == found + SeriesMarkets(now, huntReply, HuntList[h])
    ensures Stamped(now, found', origin', h + 1)
  {
    HuntListSeries();
    var series := HuntList[h];
    var slug := SeriesSlug(now, series);
    var reply := huntReply(slug);
    var added := [];
    if reply.Some? {
      added := HuntReply(reply.value, slug, SeriesEnd(now, series));
    }
    StampedAppend(now, found, origin, h, added);
    found' := found + added;
    var tags: seq<nat> := seq(|added|, _ => h);
    origin' := origin + tags;
  }

  /** The markets of one hunted reply that carry token ids, stamped with the slug and end time. */
  method HuntReply(markets: seq<RawMarket>, slug: string, endTime: int) returns (added: seq<Market>)
    ensures added == HuntedMarkets(markets, slug, endTime)
    ensures forall k :: 0 <= k < |added| ==>
              |added[k].tokenIds| > 0 && added[k].slug == slug && added[k].endTime == endTime
  {
    added := [];
    var i := 0;
    while i < |markets|
      invariant 0 <= i <= |markets|
      invariant added == HuntedMarkets(markets[..i], slug, endTime)
      invariant forall k :: 0 <= k < |added| ==>
                  |added[k].tokenIds| > 0 && added[k].slug == slug && added[k].endTime == endTime
    {
      var m := markets[i];
      if |m.tokenIds| > 0 {
        added := added + [Market(m.question, m.id, m.conditionId, m.tokenIds, slug, endTime)];
      }
      assert markets[..i + 1][..i] == markets[..i];
      i := i + 1;
    }
    assert markets[..i] == markets;
  }

  /**
   * The global scan of `find_active_markets` after the hunted `prior`: it
   * keeps `prior`, and every appended entry has token ids and an id not
   * found before it.
   */
  method ScanEvents(prior: seq<Market>, events: seq<Event>) returns (found: seq<Market>)
    ensures found == Scanned(prior, events)
    ensures |prior| <= |found| && found[..|prior|] == prior
    ensures forall k :: |prior| <= k < |found| ==> |found[k].tokenIds| > 0
    ensures forall j, k :: 0 <= j < k < |found| && |prior| <= k ==> found[j].marketId != found[k].marketId
  {
    found := prior;
    var e := 0;
    while e < |events|
      invariant 0 <= e <= |events|
      invariant found == Scanned(prior, events[..e])
    {
      var ev := events[e];
      if ContainsAny(Upper(ev.title), ["BTC", "ETH", "SOL"]) {
        found := ScanEvent(found, ev);
      }
      assert events[..e + 1][..e] == events[..e];
      e := e + 1;
    }
    assert events[..e] == events;
    ScannedEffect(prior, events);
    forall j, k | 0 <= j < k < |found| && |prior| <= k
      ensures found[j].marketId != found[k].marketId
    {
      assert found[..k][j] == found[j];
    }
  }

  /** The scan of one event's markets: a market with token ids and an id not yet found is appended. */
  method ScanEvent(prior: seq<Market>, ev: Event) returns (found: seq<Market>)
    ensures found == ScannedMarkets(prior, ev.markets, ev.slug)
  {
    found := prior;
    var i := 0;
    while i < |ev.markets|
      invariant 0 <= i <= |ev.markets|
      invariant found == ScannedMarkets(prior, ev.markets[..i], ev.slug)
    {
      var m := ev.markets[i];
      var seen := HasIdScan(found, m.id);
      if !seen && |m.tokenIds| > 0 {
        found := found + [Market(m.question, m.id, m.conditionId, m.tokenIds, ev.slug, m.endTime)];
      }
      assert ev.markets[..i + 1][..i] == ev.markets[..i];
      i := i + 1;
    }
    assert ev.markets[..i] == ev.markets;
  }

  /** `any(fm['marketId'] == id for fm in found)`, as the scan loop computes it. */
  method HasIdScan(found: seq<Market>, id: string) returns (r: bool)
    ensures r <==> HasId(found, id)
  {
    var k := 0;
    while k < |found|
      invariant 0 <= k <= |found|
      invariant forall j :: 0 <= j < k ==> found[j].marketId != id
    {
      if found[k].marketId == id {
        return true;
      }
      k := k + 1;
    }
    return false;
  }

  // ---------------------------------------------------------------------
  // Orders and balance.

  /** `round(x, 2)`, replaced by the 0.01 minimum when it is not positive. */
  function SafeRound(x: real): (r: real)
    ensures r > 0.0
    ensures Round2(x) > 0.0 ==> r == Round2(x)
  {
    if Round2(x) <= 0.0 then 0.01 else Round2(x)
  }

  /** A positive amount is moved by at most half a cent, and a whole number of cents not at all. */
  lemma {:induction false} SafeRoundClose(x: real)
    requires x >= 0.005
    ensures x - 0.005 < SafeRound(x) <= x + 0.005
  {
    RoundError(x, 100);
    RoundMonotone(0.005, x, 100);
    assert Round(0.005, 100) == 0.01 by {
      assert (0.005 * 100.0 + 0.5).Floor == 1;
    }
  }

  lemma {:induction false} SafeRoundWholeCents(cents: nat)
    requires cents >= 1
    ensures SafeRound(cents as real / 100.0) == cents as real / 100.0
  {
    RoundWhole(cents, 100);
  }

  datatype Side = Buy | Sell

  datatype OrderArgs = OrderArgs(price: real, size: real, side: Side, tokenId: string)

  /** What `place_limit_order` returns or raises. */
  datatype OrderResult = PaperFilled | Posted(response: string) | OrderFailed

  /**
   * `place_limit_order`.  `post` is the venue's create-and-post call (None
   * when it raises); a missing client and a failed post both raise.
   */
  function PlaceLimitOrder(paperTrading: bool, hasClient: bool, tokenId: string, price: real, size: real,
                           side: string, post: OrderArgs -> Option<string>): (r: OrderResult)
    ensures paperTrading <==> r == PaperFilled
  {
    if paperTrading then PaperFilled
    else if !hasClient then OrderFailed
    else
      var orderSide := if Upper(side) == "BUY" then Buy else Sell;
      var args := OrderArgs(SafeRound(price), SafeRound(size), orderSide, tokenId);
      match post(args)
      case Some(response) => Posted(response)
      case None => OrderFailed
  }

  /** A live order always reaches the venue with a positive price and size in whole cents. */
  lemma {:induction false} LiveOrderArguments(tokenId: string, price: real, size: real, side: string,
                                              post: OrderArgs -> Option<string>)
    ensures PlaceLimitOrder(false, true, tokenId, price, size, side, post) ==
              (match post(OrderArgs(SafeRound(price), SafeRound(size), if Upper(side) == "BUY" then Buy else Sell, tokenId))
               case Some(response) => Posted(response)
               case None => OrderFailed)
    ensures SafeRound(price) > 0.0 && SafeRound(size) > 0.0
  {
  }

  /** One reply of the balance query: it raised, or it returned a dict or something else. */
  datatype BalanceReply = Raised | Dict(balance: Option<real>) | OtherShape

  /** Micro-units per USDC. */
  const UsdcUnits: real := 1000000.0

  /**
   * The balance the retry loop settles on from attempt `attempt` on: the
   * first reply that does not raise decides; a dict whose balance does not
   * parse raises too.  Three attempts in all.
   */
  function BalanceFrom(reply: nat -> BalanceReply, attempt: nat): real
    decreases 3 - attempt
  {
    if attempt >= 3 then 0.0
    else
      match reply(attempt)
      case Dict(Some(units)) => units / UsdcUnits
      case OtherShape => 0.0
      case _ => if attempt < 2 then BalanceFrom(reply, attempt + 1) else 0.0
  }

  /** Only the first three replies matter. */
  lemma {:induction false} BalanceUsesThreeAttempts(r1: nat -> BalanceReply, r2: nat -> BalanceReply, attempt: nat)
    requires forall k :: attempt <= k < 3 ==> r1(k) == r2(k)
    ensures BalanceFrom(r1, attempt) == BalanceFrom(r2, attempt)
    decreases 3 - attempt
  {
    if attempt < 3 {
      BalanceUsesThreeAttempts(r1, r2, attempt + 1);
    }
  }

  /** `get_usdc_balance`: 0.0 without a client, otherwise up to three attempts. */
  method GetUsdcBalance(hasClient: bool, reply: nat -> BalanceReply) returns (balance: real)
    ensures !hasClient ==> balance == 0.0
    ensures hasClient ==> balance == BalanceFrom(reply, 0)
  {
    if !hasClient {
      return 0.0;
    }
    var attempt := 0;
    while attempt < 3
      invariant 0 <= attempt <= 3
      invariant BalanceFrom(reply, 0) == BalanceFrom(reply, attempt)
    {
      match reply(attempt)
      case Dict(Some(units)) =>
        return units / UsdcUnits;
      case OtherShape =>
        return 0.0;
      case _ =>
        if attempt < 2 {
          attempt := attempt + 1;
          continue;
        }
        return 0.0;
    }
    return 0.0;
  }
}
