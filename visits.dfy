/** The in-memory visit aggregate that `Data.load` builds and `Statistics` reads. */
module Visits {

  /** Visit counts and unique-visitor sets, in total, per day, month and year bucket,
      per region and per browser. */
  datatype Aggregate = Aggregate(
    total: int,
    uniqueTotal: set<string>,
    daily: map<string, int>,
    monthly: map<string, int>,
    yearly: map<string, int>,
    uniqueDaily: map<string, set<string>>,
    uniqueMonthly: map<string, set<string>>,
    uniqueYearly: map<string, set<string>>,
    byRegion: map<string, int>,
    uniqueByRegion: map<string, set<string>>,
    byBrowser: map<string, int>,
    uniqueByBrowser: map<string, set<string>>)

  /** The aggregate of a first run: zero visits, every set and map empty. */
  const Blank: Aggregate :=
    Aggregate(0, {}, map[], map[], map[], map[], map[], map[], map[], map[], map[], map[])

  /** The top-level keys of the aggregate (`'total'`, `'unique_total'`, `'daily'`, ...). */
  datatype Key =
    | Total | UniqueTotal
    | Daily | Monthly | Yearly
    | UniqueDaily | UniqueMonthly | UniqueYearly
    | ByRegion | UniqueByRegion
    | ByBrowser | UniqueByBrowser

  /** What one top-level key holds. */
  datatype Value =
    | Count(n: int)
    | Visitors(members: set<string>)
    | Counts(counts: map<string, int>)
    | VisitorSets(sets: map<string, set<string>>)

  predicate IsCountMap(k: Key) {
    k.Daily? || k.Monthly? || k.Yearly? || k.ByRegion? || k.ByBrowser?
  }

  predicate IsVisitorSetMap(k: Key) {
    k.UniqueDaily? || k.UniqueMonthly? || k.UniqueYearly? || k.UniqueByRegion? || k.UniqueByBrowser?
  }

  /** The value v has the shape that key k holds. */
  predicate Fits(k: Key, v: Value) {
    if k.Total? then v.Count?
    else if k.UniqueTotal? then v.Visitors?
    else if IsCountMap(k) then v.Counts?
    else v.VisitorSets?
  }

  /** `data[key]` */
  function Lookup(a: Aggregate, k: Key): (v: Value)
    ensures Fits(k, v)
  {
    match k
    case Total => Count(a.total)
    case UniqueTotal => Visitors(a.uniqueTotal)
    case Daily => Counts(a.daily)
    case Monthly => Counts(a.monthly)
    case Yearly => Counts(a.yearly)
    case UniqueDaily => VisitorSets(a.uniqueDaily)
    case UniqueMonthly => VisitorSets(a.uniqueMonthly)
    case UniqueYearly => VisitorSets(a.uniqueYearly)
    case ByRegion => Counts(a.byRegion)
    case UniqueByRegion => VisitorSets(a.uniqueByRegion)
    case ByBrowser => Counts(a.byBrowser)
    case UniqueByBrowser => VisitorSets(a.uniqueByBrowser)
  }

  /** `data[key] = v`: afterwards key holds v (and, by PutKeepsOthers, every other key
      what it held before). */
  function Put(a: Aggregate, k: Key, v: Value): (r: Aggregate)
    requires Fits(k, v)
    ensures Lookup(r, k) == v
  {
    match k
    case Total => a.(total := v.n)
    case UniqueTotal => a.(uniqueTotal := v.members)
    case Daily => a.(daily := v.counts)
    case Monthly => a.(monthly := v.counts)
    case Yearly => a.(yearly := v.counts)
    case UniqueDaily => a.(uniqueDaily := v.sets)
    case UniqueMonthly => a.(uniqueMonthly := v.sets)
    case UniqueYearly => a.(uniqueYearly := v.sets)
    case ByRegion => a.(byRegion := v.counts)
    case UniqueByRegion => a.(uniqueByRegion := v.sets)
    case ByBrowser => a.(byBrowser := v.counts)
    case UniqueByBrowser => a.(uniqueByBrowser := v.sets)
  }

  /** Setting one key leaves every other key as it was. */
  lemma PutKeepsOthers(a: Aggregate, k: Key, v: Value, j: Key)
    requires Fits(k, v) && j != k
    ensures Lookup(Put(a, k, v), j) == Lookup(a, j)
  {
  }

  /** Two aggregates that agree on every key are the same aggregate: the twelve keys are
      the whole of it. */
  lemma KeysDetermine(a: Aggregate, b: Aggregate)
    requires forall k :: Lookup(a, k) == Lookup(b, k)
    ensures a == b
  {
    assert Lookup(a, Total) == Lookup(b, Total);
    assert Lookup(a, UniqueTotal) == Lookup(b, UniqueTotal);
    assert Lookup(a, Daily) == Lookup(b, Daily);
    assert Lookup(a, Monthly) == Lookup(b, Monthly);
    assert Lookup(a, Yearly) == Lookup(b, Yearly);
    assert Lookup(a, UniqueDaily) == Lookup(b, UniqueDaily);
    assert Lookup(a, UniqueMonthly) == Lookup(b, UniqueMonthly);
    assert Lookup(a, UniqueYearly) == Lookup(b, UniqueYearly);
    assert Lookup(a, ByRegion) == Lookup(b, ByRegion);
    assert Lookup(a, UniqueByRegion) == Lookup(b, UniqueByRegion);
    assert Lookup(a, ByBrowser) == Lookup(b, ByBrowser);
    assert Lookup(a, UniqueByBrowser) == Lookup(b, UniqueByBrowser);
  }
}
