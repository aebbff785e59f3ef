// The record kept per wallet address in the whale database (whales.json):
// written by the manager, scored by the scorer, read by the copy bot.
module WhaleDb {
  import opened Wrappers

  /** The scorer's summary of a wallet; `topCategories` pairs a tag with its BUY count. */
  datatype Metrics = Metrics(trades30d: nat, winRate: real, roi: real, topCategories: seq<(string, nat)>)

  /**
   * One wallet. `winRate` and `roi` are percentages; `score` and `metrics`
   * appear once the scorer has run, the two times once the manager wrote
   * the record.
   */
  datatype WhaleRecord = WhaleRecord(name: string, status: string, winRate: real, roi: real,
                                     score: Option<real>, metrics: Option<Metrics>,
                                     addedAt: Option<int>, lastUpdated: Option<int>)

  const Active: string := "active"
  const Inactive: string := "inactive"

  predicate IsActive(r: WhaleRecord)
  {
    r.status == Active
  }
}
