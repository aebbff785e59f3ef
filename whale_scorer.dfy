// The whale scorer: counts a wallet's recent BUYs and the market categories
// it trades, and folds its recorded win rate and return into a score out of
// 100 that the copy bot uses to size its stakes.
module WhaleScorer {
  import opened Numerics
  import opened Wrappers
  import opened Collections
  import opened WhaleDb

  const WeightProfit: real := 0.40
  const WeightWinRate: real := 0.40
  const WeightFrequency: real := 0.20
  /** Thirty BUYs in thirty days earn the full frequency score. */
  const FullFrequency: real := 30.0
  const TopCategoryCount: nat := 3
  const UnknownTag: string := "Unknown"

  // ---------------------------------------------------------------------
  // Score normalisation.
  // ---------------------------------------------------------------------

  /** The frequency score: linear in the trade count, full from 30 trades on. */
  function FreqScore(tradeCount: nat): (s: real)
    ensures 0.0 <= s <= 100.0
    ensures tradeCount as real >= FullFrequency ==> s == 100.0
  {
    Min(tradeCount as real / FullFrequency * 100.0, 100.0)
  }

  /** The win-rate score: nothing at 50% or below, full at 80% or above. */
  function WinScore(winRate: real): (s: real)
    ensures 0.0 <= s <= 100.0
    ensures winRate <= 50.0 ==> s == 0.0
    ensures winRate >= 80.0 ==> s == 100.0
  {
    Max(0.0, Min((winRate - 50.0) / 30.0 * 100.0, 100.0))
  }

  /** The return score: nothing at 0% or below, full at 50% or above. */
  function RoiScore(roi: real): (s: real)
    ensures 0.0 <= s <= 100.0
    ensures roi <= 0.0 ==> s == 0.0
    ensures roi >= 50.0 ==> s == 100.0
  {
    Max(0.0, Min((roi - 0.0) / 50.0 * 100.0, 100.0))
  }

  lemma WeightsSumToOne()
    ensures WeightFrequency + WeightWinRate + WeightProfit == 1.0
  {
  }

  /** The weighted blend; as the weights sum to one it stays within [0, 100]. */
  function FinalScore(tradeCount: nat, winRate: real, roi: real): (s: real)
    ensures 0.0 <= s <= 100.0
    ensures tradeCount as real >= FullFrequency && winRate >= 80.0 && roi >= 50.0 ==> s == 100.0
    ensures winRate <= 50.0 && roi <= 0.0 ==> s == WeightFrequency * FreqScore(tradeCount)
  {
    FreqScore(tradeCount) * WeightFrequency + WinScore(winRate) * WeightWinRate + RoiScore(roi) * WeightProfit
  }

  /** More trades, a better win rate or a better return never lower the score. */
  lemma {:induction false} FinalScoreMonotone(c1: nat, c2: nat, w1: real, w2: real, r1: real, r2: real)
    requires c1 <= c2 && w1 <= w2 && r1 <= r2
    ensures FinalScore(c1, w1, r1) <= FinalScore(c2, w2, r2)
  {
    DivLeft(c1 as real, c2 as real, FullFrequency);
    MulLeft(c1 as real / FullFrequency, c2 as real / FullFrequency, 100.0);
    MinMonotone(c1 as real / FullFrequency * 100.0, c2 as real / FullFrequency * 100.0, 100.0);
    DivLeft(w1 - 50.0, w2 - 50.0, 30.0);
    MulLeft((w1 - 50.0) / 30.0, (w2 - 50.0) / 30.0, 100.0);
    MinMonotone((w1 - 50.0) / 30.0 * 100.0, (w2 - 50.0) / 30.0 * 100.0, 100.0);
    DivLeft(r1 - 0.0, r2 - 0.0, 50.0);
    MulLeft((r1 - 0.0) / 50.0, (r2 - 0.0) / 50.0, 100.0);
    MinMonotone((r1 - 0.0) / 50.0 * 100.0, (r2 - 0.0) / 50.0 * 100.0, 100.0);
  }

  /** The published score: the blend rounded to one decimal, still within [0, 100]. */
  function Score(tradeCount: nat, winRate: real, roi: real): (s: real)
    ensures 0.0 <= s <= 100.0
    ensures FinalScore(tradeCount, winRate, roi) - 0.05 < s <= FinalScore(tradeCount, winRate, roi) + 0.05
  {
    var f := FinalScore(tradeCount, winRate, roi);
    RoundWithin(f, 10, 100);
    RoundError(f, 10);
    Round(f, 10)
  }

  // ---------------------------------------------------------------------
  // Counting activity.
  // ---------------------------------------------------------------------

  /**
   * A timestamp as the feed gives it: seconds, text that does not parse as
   * an ISO time, or nothing at all.
   */
  datatype Stamp = Seconds(t: int) | BadText | Missing

  datatype ScoredActivity = ScoredActivity(kind: string, side: string, timestamp: Stamp, slug: string)

  predicate IsBuy(a: ScoredActivity)
  {
    a.kind == "TRADE" && a.side == "BUY"
  }

  /** The running counts: recent BUYs, and BUYs per tag with the tags in first-seen order. */
  datatype Tally = Tally(tradeCount: nat, tags: seq<string>, counts: map<string, nat>)

  ghost predicate TallyValid(t: Tally)
  {
    NoDuplicates(t.tags) && forall k :: k in t.tags <==> k in t.counts
  }

  /** The labels a BUY counts under: its market's tags, or "Unknown" when it has none. */
  function TagsFor(slug: string, tagsOf: string -> seq<string>): (r: seq<string>)
    ensures |r| > 0
    ensures tagsOf(slug) == [] ==> r == [UnknownTag]
  {
    if tagsOf(slug) == [] then [UnknownTag] else tagsOf(slug)
  }

  /** One tag counted once more. */
  function Bump(t: Tally, tag: string): (r: Tally)
    ensures r.tradeCount == t.tradeCount
    ensures tag in r.counts && r.counts[tag] == (if tag in t.counts then t.counts[tag] else 0) + 1
    ensures forall k :: k in t.counts && k != tag ==> k in r.counts && r.counts[k] == t.counts[k]
  {
    var prior := if tag in t.counts then t.counts[tag] else 0;
    Tally(t.tradeCount, Insert(t.tags, tag), t.counts[tag := prior + 1])
  }

  /** `for tag in tags: category_stats[tag] += 1` over the first labels. */
  function AddTags(t: Tally, labels: seq<string>): (r: Tally)
    ensures r.tradeCount == t.tradeCount
  {
    if |labels| == 0 then t else Bump(AddTags(t, labels[..|labels| - 1]), labels[|labels| - 1])
  }

  /**
   * One activity of the counting loop: a BUY without a timestamp aborts the
   * whole calculation; one whose text does not parse is skipped; any other
   * BUY counts as recent when strictly after the cutoff, and is tagged when
   * it has a slug.
   */
  function TallyStep(t: Tally, a: ScoredActivity, cutoff: int, tagsOf: string -> seq<string>): (r: Option<Tally>)
  {
    if !IsBuy(a) then Some(t)
    else
      match a.timestamp
      case Missing => None
      case BadText => Some(t)
      case Seconds(s) =>
        var counted := if s > cutoff then t.(tradeCount := t.tradeCount + 1) else t;
        if a.slug == "" then Some(counted) else Some(AddTags(counted, TagsFor(a.slug, tagsOf)))
  }

  function TallyOf(acts: seq<ScoredActivity>, cutoff: int, tagsOf: string -> seq<string>): (r: Option<Tally>)
  {
    if |acts| == 0 then Some(Tally(0, [], map[]))
    else
      match TallyOf(acts[..|acts| - 1], cutoff, tagsOf)
      case None => None
      case Some(t) => TallyStep(t, acts[|acts| - 1], cutoff, tagsOf)
  }

  lemma BumpValid(t: Tally, tag: string)
    requires TallyValid(t)
    ensures TallyValid(Bump(t, tag))
  {
  }

  lemma {:induction false} AddTagsValid(t: Tally, labels: seq<string>)
    requires TallyValid(t)
    ensures TallyValid(AddTags(t, labels))
  {
    if |labels| > 0 {
      AddTagsValid(t, labels[..|labels| - 1]);
      BumpValid(AddTags(t, labels[..|labels| - 1]), labels[|labels| - 1]);
    }
  }

  lemma TallyStepValid(t: Tally, a: ScoredActivity, cutoff: int, tagsOf: string -> seq<string>)
    requires TallyValid(t) && TallyStep(t, a, cutoff, tagsOf).Some?
    ensures TallyValid(TallyStep(t, a, cutoff, tagsOf).value)
  {
    if IsBuy(a) && a.timestamp.Seconds? && a.slug != "" {
      var counted := if a.timestamp.t > cutoff then t.(tradeCount := t.tradeCount + 1) else t;
      AddTagsValid(counted, TagsFor(a.slug, tagsOf));
    }
  }

  /** A completed tally is consistent: every tag listed once, and exactly the tags listed have counts. */
  lemma {:induction false} TallyOfValid(acts: seq<ScoredActivity>, cutoff: int, tagsOf: string -> seq<string>)
    requires TallyOf(acts, cutoff, tagsOf).Some?
    ensures TallyValid(TallyOf(acts, cutoff, tagsOf).value)
  {
    if |acts| > 0 {
      var init := acts[..|acts| - 1];
      TallyOfValid(init, cutoff, tagsOf);
      TallyStepValid(TallyOf(init, cutoff, tagsOf).value, acts[|acts| - 1], cutoff, tagsOf);
    }
  }

  /** The reference count: BUYs with a numeric time strictly after the cutoff. */
  function RecentBuys(acts: seq<ScoredActivity>, cutoff: int): nat
  {
    if |acts| == 0 then 0
    else
      (if IsBuy(acts[0]) && acts[0].timestamp.Seconds? && acts[0].timestamp.t > cutoff then 1 else 0) +
      RecentBuys(acts[1..], cutoff)
  }

  lemma {:induction false} RecentBuysSnoc(acts: seq<ScoredActivity>, a: ScoredActivity, cutoff: int)
    ensures RecentBuys(acts + [a], cutoff) ==
              RecentBuys(acts, cutoff) + (if IsBuy(a) && a.timestamp.Seconds? && a.timestamp.t > cutoff then 1 else 0)
  {
    if |acts| > 0 {
      assert (acts + [a])[1..] == acts[1..] + [a];
      RecentBuysSnoc(acts[1..], a, cutoff);
    } else {
      assert (acts + [a])[1..] == [];
    }
  }

  /** `30d_trades` counts exactly the recent BUYs. */
  lemma {:induction false} TallyCountsRecentBuys(acts: seq<ScoredActivity>, cutoff: int, tagsOf: string -> seq<string>)
    requires TallyOf(acts, cutoff, tagsOf).Some?
    ensures TallyOf(acts, cutoff, tagsOf).value.tradeCount == RecentBuys(acts, cutoff)
  {
    if |acts| > 0 {
      var init := acts[..|acts| - 1];
      TallyCountsRecentBuys(init, cutoff, tagsOf);
      assert init + [acts[|acts| - 1]] == acts;
      RecentBuysSnoc(init, acts[|acts| - 1], cutoff);
    }
  }

  /** The calculation fails exactly when some BUY has no timestamp at all. */
  lemma {:induction false} TallyFailsOnMissingStamp(acts: seq<ScoredActivity>, cutoff: int,
                                                    tagsOf: string -> seq<string>)
    ensures TallyOf(acts, cutoff, tagsOf).None? <==>
              exists i :: 0 <= i < |acts| && IsBuy(acts[i]) && acts[i].timestamp.Missing?
  {
    if |acts| > 0 {
      var init := acts[..|acts| - 1];
      TallyFailsOnMissingStamp(init, cutoff, tagsOf);
      if exists i :: 0 <= i < |init| && IsBuy(init[i]) && init[i].timestamp.Missing? {
        var i :| 0 <= i < |init| && IsBuy(init[i]) && init[i].timestamp.Missing?;
        assert acts[i] == init[i];
      } else if IsBuy(acts[|acts| - 1]) && acts[|acts| - 1].timestamp.Missing? {
      } else {
        forall i | 0 <= i < |acts|
          ensures !(IsBuy(acts[i]) && acts[i].timestamp.Missing?)
        {
          if i < |init| {
            assert acts[i] == init[i];
          }
        }
      }
    }
  }

  // ---------------------------------------------------------------------
  // Top categories.
  // ---------------------------------------------------------------------

  /** Every tag has a count. */
  ghost predicate Counted<T(!new)>(tags: seq<T>, counts: map<T, nat>)
  {
    forall t :: t in tags ==> t in counts
  }

  /** The position of the first tag with the largest count (see `ArgMaxIsFirstMax`). */
  function ArgMax<T(==,!new)>(tags: seq<T>, counts: map<T, nat>): (i: nat)
    requires |tags| > 0 && Counted(tags, counts)
    ensures i < |tags|
  {
    if |tags| == 1 then 0
    else
      var i := ArgMax(tags[..|tags| - 1], counts);
      if counts[tags[|tags| - 1]] > counts[tags[i]] then |tags| - 1 else i
  }

  /** `ArgMax` picks a largest count, and no earlier tag has that count. */
  lemma {:induction false} ArgMaxIsFirstMax<T(!new)>(tags: seq<T>, counts: map<T, nat>)
    requires |tags| > 0 && Counted(tags, counts)
    ensures forall j :: 0 <= j < |tags| ==> counts[tags[j]] <= counts[tags[ArgMax(tags, counts)]]
    ensures forall j :: 0 <= j < ArgMax(tags, counts) ==> counts[tags[j]] < counts[tags[ArgMax(tags, counts)]]
  {
    if |tags| > 1 {
      var front := tags[..|tags| - 1];
      ArgMaxIsFirstMax(front, counts);
      assert forall j :: 0 <= j < |front| ==> front[j] == tags[j];
    }
  }

  /** Counts never increase along `r`. */
  ghost predicate DescendingCounts<T(!new)>(r: seq<T>, counts: map<T, nat>)
  {
    forall a, b :: 0 <= a < b < |r| && r[a] in counts && r[b] in counts ==> counts[r[a]] >= counts[r[b]]
  }

  lemma DescendingCons<T(!new)>(x: T, tail: seq<T>, counts: map<T, nat>)
    requires DescendingCounts(tail, counts) && x in counts
    requires forall u :: u in tail ==> u in counts && counts[u] <= counts[x]
    ensures DescendingCounts([x] + tail, counts)
  {
    var r := [x] + tail;
    forall a, b | 0 <= a < b < |r| && r[a] in counts && r[b] in counts
      ensures counts[r[a]] >= counts[r[b]]
    {
      assert r[b] == tail[b - 1];
      if a > 0 {
        assert r[a] == tail[a - 1];
      }
    }
  }

  /**
   * The `k` tags with the highest counts, highest first, earlier tags first
   * among equal counts; this is what a stable descending sort cut to `k`
   * gives. The chosen tags are distinct tags of `tags`, in non-increasing
   * count order, and no tag left out counts more than a chosen one.
   */
  function TopK<T(==,!new)>(tags: seq<T>, counts: map<T, nat>, k: nat): (r: seq<T>)
    requires Counted(tags, counts)
    ensures |r| <= k
    ensures forall t :: t in r ==> t in tags
    ensures NoDuplicates(r)
    ensures DescendingCounts(r, counts)
    ensures forall t, u :: t in tags && t !in r && u in r ==> counts[t] <= counts[u]
    ensures NoDuplicates(tags) ==> |r| == if k < |tags| then k else |tags|
    decreases k
  {
    if k == 0 || |tags| == 0 then []
    else
      var x := tags[ArgMax(tags, counts)];
      var tail := TopK(Remove(tags, x), counts, k - 1);
      assert NoDuplicates(tags) ==> |Remove(tags, x)| == |tags| - 1 by {
        if NoDuplicates(tags) {
          RemoveOnce(tags, x);
        }
      }
      ArgMaxIsFirstMax(tags, counts);
      ConsNoDuplicates(x, tail);
      DescendingCons(x, tail, counts);
      [x] + tail
  }

  /** `top_categories`: the three most traded tags with their counts. */
  function TopCategories(t: Tally): (r: seq<(string, nat)>)
    requires TallyValid(t)
    ensures |r| <= TopCategoryCount
    ensures forall p :: p in r ==> p.0 in t.counts && p.1 == t.counts[p.0]
  {
    var top := TopK(t.tags, t.counts, TopCategoryCount);
    seq(|top|, j requires 0 <= j < |top| => (top[j], t.counts[top[j]]))
  }

  // ---------------------------------------------------------------------
  // The scorer.
  // ---------------------------------------------------------------------

  datatype ScoreResult = ScoreResult(score: real, metrics: Metrics)

  /** What `calculate_score` returns for a wallet whose feed reply is `reply`. */
  function ScoreOf(reply: Option<seq<ScoredActivity>>, cutoff: int, winRate: real, roi: real,
                   tagsOf: string -> seq<string>): Option<ScoreResult>
  {
    if reply.None? then None
    else
      match TallyOf(reply.value, cutoff, tagsOf)
      case None => None
      case Some(t) =>
        TallyOfValid(reply.value, cutoff, tagsOf);
        Some(ScoreResult(Score(t.tradeCount, winRate, roi),
                         Metrics(t.tradeCount, Round2(winRate), Round2(roi), TopCategories(t))))
  }

  /**
   * `calculate_score`. `reply` is None when the feed does not answer 200;
   * `tagsOf(slug)` are the market's tag labels, empty when they cannot be
   * fetched.
   */
  method CalculateScore(reply: Option<seq<ScoredActivity>>, cutoff: int, winRate: real, roi: real,
                        tagsOf: string -> seq<string>) returns (r: Option<ScoreResult>)
    ensures r == ScoreOf(reply, cutoff, winRate, roi, tagsOf)
    ensures r.Some? ==> 0.0 <= r.value.score <= 100.0 && |r.value.metrics.topCategories| <= TopCategoryCount &&
                        r.value.metrics.trades30d == RecentBuys(reply.value, cutoff)
  {
    if reply.None? {
      return None;
    }
    var acts := reply.value;
    var tradeCount: nat := 0;
    var tags: seq<string> := [];
    var counts: map<string, nat> := map[];
    var i := 0;
    while i < |acts|
      invariant 0 <= i <= |acts|
      invariant TallyOf(acts[..i], cutoff, tagsOf) == Some(Tally(tradeCount, tags, counts))
    {
      var a := acts[i];
      assert acts[..i + 1][..i] == acts[..i];
      if IsBuy(a) {
        if a.timestamp.Missing? {
          TallyStopsAtMissing(acts, i, cutoff, tagsOf);
          return None;
        }
        if a.timestamp.Seconds? {
          if a.timestamp.t > cutoff {
            tradeCount := tradeCount + 1;
          }
          if a.slug != "" {
            var counted := CountTags(Tally(tradeCount, tags, counts), TagsFor(a.slug, tagsOf));
            tags := counted.tags;
            counts := counted.counts;
          }
        }
      }
      i := i + 1;
    }
    assert acts[..|acts|] == acts;
    var t := Tally(tradeCount, tags, counts);
    TallyCountsRecentBuys(acts, cutoff, tagsOf);
    TallyOfValid(acts, cutoff, tagsOf);
    r := Some(ScoreResult(Score(tradeCount, winRate, roi),
                          Metrics(tradeCount, Round2(winRate), Round2(roi), TopCategories(t))));
  }

  /** The inner loop of the tagging: each label of the BUY counted once more. */
  method CountTags(t: Tally, labels: seq<string>) returns (r: Tally)
    ensures r == AddTags(t, labels)
  {
    r := t;
    var j := 0;
    while j < |labels|
      invariant 0 <= j <= |labels|
      invariant r == AddTags(t, labels[..j])
    {
      AddTagsStep(t, labels, j);
      r := Bump(r, labels[j]);
      j := j + 1;
    }
    assert labels[..|labels|] == labels;
  }

  /** Tagging one more label is one more bump. */
  lemma AddTagsStep(t: Tally, labels: seq<string>, j: nat)
    requires j < |labels|
    ensures AddTags(t, labels[..j + 1]) == Bump(AddTags(t, labels[..j]), labels[j])
  {
    assert labels[..j + 1][..j] == labels[..j];
  }

  /** Once the tally fails it stays failed. */
  lemma {:induction false} TallyStopsAtMissing(acts: seq<ScoredActivity>, i: nat, cutoff: int,
                                               tagsOf: string -> seq<string>)
    requires i < |acts| && IsBuy(acts[i]) && acts[i].timestamp.Missing?
    ensures TallyOf(acts, cutoff, tagsOf).None?
  {
    TallyFailsOnMissingStamp(acts, cutoff, tagsOf);
  }

  /**
   * `run`: every active wallet with a result gets the new score and
   * metrics; inactive wallets and wallets whose calculation failed are left
   * as they were. `feed(addr)` is the wallet's activity reply.
   */
  method Run(db: map<string, WhaleRecord>, keys: seq<string>, cutoff: int,
             feed: string -> Option<seq<ScoredActivity>>, tagsOf: string -> seq<string>)
    returns (updated: map<string, WhaleRecord>)
    requires NoDuplicates(keys) && forall a :: a in keys <==> a in db
    ensures updated.Keys == db.Keys
    ensures forall a :: a in db ==>
              updated[a] == (if !IsActive(db[a]) then db[a]
                             else match ScoreOf(feed(a), cutoff, db[a].winRate, db[a].roi, tagsOf)
                                  case None => db[a]
                                  case Some(s) => db[a].(score := Some(s.score), metrics := Some(s.metrics)))
  {
    updated := db;
    var i := 0;
    while i < |keys|
      invariant 0 <= i <= |keys| && updated.Keys == db.Keys
      invariant forall a :: a in db && a !in keys[..i] ==> updated[a] == db[a]
      invariant forall a :: a in keys[..i] ==>
                  updated[a] == (if !IsActive(db[a]) then db[a]
                                 else match ScoreOf(feed(a), cutoff, db[a].winRate, db[a].roi, tagsOf)
                                      case None => db[a]
                                      case Some(s) => db[a].(score := Some(s.score), metrics := Some(s.metrics)))
    {
      var addr := keys[i];
      assert keys[..i + 1] == keys[..i] + [addr];
      assert addr !in keys[..i];
      var info := updated[addr];
      if IsActive(info) {
        var stats := CalculateScore(feed(addr), cutoff, info.winRate, info.roi, tagsOf);
        if stats.Some? {
          updated := updated[addr := info.(score := Some(stats.value.score), metrics := Some(stats.value.metrics))];
        }
      }
      i := i + 1;
    }
    assert keys[..|keys|] == keys;
  }
}
