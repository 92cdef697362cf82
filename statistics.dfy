/** The statistics query over the visit aggregate (`Statistics.get_stats`). */
module Statistics {
  import opened Storage
  import opened Visits
  import opened DataStore

  /** `{'total': ..., 'unique': ...}` for one bucket */
  datatype Entry = Entry(total: int, unique: nat)

  /** What `get_stats` returns: the overall figures, a table of buckets, or the error
      marker `{'error': ...}`. */
  datatype Report =
    | Summary(total: int, unique: nat)
    | Table(entries: map<string, Entry>)
    | Error(error: string)

  const InvalidPeriod: string := "Invalid period"

  /** The period tokens `get_stats` answers; any other yields the error marker. */
  const Periods: set<string> := {"total", "yearly", "monthly", "daily", "regionally", "by_browser"}

  /** `len(uniques.get(key, set()))` */
  function UniqueCount(uniques: map<string, set<string>>, key: string): nat {
    if key in uniques then |uniques[key]| else 0
  }

  /** `{key: {'total': counts[key], 'unique': ...} for key in counts}` */
  function Breakdown(counts: map<string, int>, uniques: map<string, set<string>>): map<string, Entry> {
    map key | key in counts :: Entry(counts[key], UniqueCount(uniques, key))
  }

  /** t reports every bucket of counts and no other: each with its visit count, and the size
      of its unique-visitor set, or 0 when uniques has no set for it. */
  ghost predicate Reports(t: map<string, Entry>, counts: map<string, int>, uniques: map<string, set<string>>) {
    && t.Keys == counts.Keys
    && forall key :: key in t ==>
         && t[key].total == counts[key]
         && t[key].unique == (if key in uniques then |uniques[key]| else 0)
  }

  /** `get_stats(period)`; the period defaults to `"total"`. Reads the aggregate and changes
      nothing. */
  function GetStats(a: Aggregate, period: string := "total"): (r: Report)
    ensures r.Error? <==> period !in Periods
    ensures r.Error? ==> r.error == InvalidPeriod
    ensures period == "total" ==> r == Summary(a.total, |a.uniqueTotal|)
    ensures period == "yearly" ==> r.Table? && Reports(r.entries, a.yearly, a.uniqueYearly)
    ensures period == "monthly" ==> r.Table? && Reports(r.entries, a.monthly, a.uniqueMonthly)
    ensures period == "daily" ==> r.Table? && Reports(r.entries, a.daily, a.uniqueDaily)
    ensures period == "regionally" ==> r.Table? && Reports(r.entries, a.byRegion, a.uniqueByRegion)
    ensures period == "by_browser" ==> r.Table? && Reports(r.entries, a.byBrowser, a.uniqueByBrowser)
  {
    if period == "total" then Summary(a.total, |a.uniqueTotal|)
    else if period == "yearly" then Table(Breakdown(a.yearly, a.uniqueYearly))
    else if period == "monthly" then Table(Breakdown(a.monthly, a.uniqueMonthly))
    else if period == "daily" then Table(Breakdown(a.daily, a.uniqueDaily))
    else if period == "regionally" then Table(Breakdown(a.byRegion, a.uniqueByRegion))
    else if period == "by_browser" then Table(Breakdown(a.byBrowser, a.uniqueByBrowser))
    else Error(InvalidPeriod)
  }

  /** Every report but the browser one reads the same after the aggregate has been saved
      and loaded again. */
  lemma StatsSurviveReload(a: Aggregate, period: string)
    requires period != "by_browser"
    ensures GetStats(Loaded(Parsed(Snapshot(a))), period) == GetStats(a, period)
  {
    LoadAfterSave(a);
  }

  /** After any load the browser report is the empty table. */
  lemma BrowserStatsAfterLoad(stored: Stored)
    ensures GetStats(Loaded(stored), "by_browser") == Table(map[])
  {
  }

  /** On a first run (no file, an empty file, unparseable text or the document `{}`) the
      overall figures are zero and every table is empty. */
  lemma FirstRunStats(stored: Stored, period: string)
    requires !stored.Parsed? || stored.doc == EmptyDocument
    ensures GetStats(Loaded(stored), period) ==
      if period == "total" then Summary(0, 0)
      else if period in Periods then Table(map[])
      else Error(InvalidPeriod)
  {
  }

  /** Ten visits by two distinct visitors report as `{'total': 10, 'unique': 2}`. */
  lemma TotalScenario(a: Aggregate)
    requires a.total == 10 && a.uniqueTotal == {"v1", "v2"}
    ensures GetStats(a, "total") == Summary(10, 2)
  {
  }

  /** Two visits by one visitor from Russia and one from the Netherlands, reported by region. */
  lemma RegionScenario(a: Aggregate)
    requires a.byRegion == map["Russia" := 2, "Netherlands" := 1]
    requires a.uniqueByRegion == map["Russia" := {"visitor1"}, "Netherlands" := {"visitor2"}]
    ensures GetStats(a, "regionally") ==
      Table(map["Russia" := Entry(2, 1), "Netherlands" := Entry(1, 1)])
  {
  }
}
