/** The persistent store: the transform between the parsed storage document and the
    in-memory aggregate (`Data.load`, `Data.save`), and the `Data` object that holds the
    aggregate and gives keyed access to it. */
module DataStore {
  import opened Storage
  import opened Visits

  /** The document a load starts from: anything but a parsed object reads as `{}`. */
  function DocumentOf(stored: Stored): (doc: Document)
    ensures stored.Parsed? ==> doc == stored.doc
    ensures !stored.Parsed? ==> doc == EmptyDocument
  {
    if stored.Parsed? then stored.doc else EmptyDocument
  }

  /** `set(xs)` */
  function SetOf(xs: seq<string>): (s: set<string>)
    ensures forall x :: x in s <==> x in xs
  {
    set x | x in xs
  }

  /** `{k: set(v) for k, v in m.items()}` */
  function SetsOf(m: map<string, seq<string>>): (r: map<string, set<string>>)
    ensures HoldsMembers(r, m)
  {
    map k | k in m :: SetOf(m[k])
  }

  /** xs lists exactly the members of s, each once. */
  ghost predicate Enumerates(xs: seq<string>, s: set<string>) {
    && (forall x :: x in xs <==> x in s)
    && (forall i, j :: 0 <= i < j < |xs| ==> xs[i] != xs[j])
  }

  /** The stored lists hold exactly the members of the sets, key by key. */
  ghost predicate HoldsMembers(sets: map<string, set<string>>, lists: map<string, seq<string>>) {
    && sets.Keys == lists.Keys
    && forall k :: k in sets ==> forall x :: x in sets[k] <==> x in lists[k]
  }

  /** Each list of lists enumerates the set of sets under the same key, and both maps have
      the same keys. */
  ghost predicate EnumeratesEach(lists: map<string, seq<string>>, sets: map<string, set<string>>) {
    && lists.Keys == sets.Keys
    && forall k :: k in sets ==> Enumerates(lists[k], sets[k])
  }

  /** `list(s)`: the members of s in an order the model leaves open. */
  ghost function ListOf(s: set<string>): (xs: seq<string>)
    ensures Enumerates(xs, s)
    decreases s
  {
    if s == {} then []
    else
      var x :| x in s;
      [x] + ListOf(s - {x})
  }

  /** `{k: list(v) for k, v in m.items()}` */
  ghost function ListsOf(m: map<string, set<string>>): (r: map<string, seq<string>>)
    ensures EnumeratesEach(r, m)
  {
    map k | k in m :: ListOf(m[k])
  }

  /** The aggregate `Data.load` returns for what the storage file holds. */
  function Loaded(stored: Stored): (a: Aggregate)
    // nothing usable on disk, and the document `{}`, both read as a first run
    ensures !stored.Parsed? || stored.doc == EmptyDocument ==> a == Blank
    // a stored total is kept as it is; an absent one reads as 0
    ensures stored.Parsed? && stored.doc.total.Some? ==> a.total == stored.doc.total.value
    ensures DocumentOf(stored).total.None? ==> a.total == 0
    // stored lists become sets of exactly their elements
    ensures forall x :: x in a.uniqueTotal <==> x in DocumentOf(stored).uniqueTotal.GetOr([])
    ensures HoldsMembers(a.uniqueDaily, DocumentOf(stored).uniqueDaily.GetOr(map[]))
    ensures HoldsMembers(a.uniqueMonthly, DocumentOf(stored).uniqueMonthly.GetOr(map[]))
    ensures HoldsMembers(a.uniqueYearly, DocumentOf(stored).uniqueYearly.GetOr(map[]))
    ensures HoldsMembers(a.uniqueByRegion, DocumentOf(stored).uniqueByRegion.GetOr(map[]))
    // count maps keep their stored keys and values
    ensures a.daily == DocumentOf(stored).daily.GetOr(map[])
    ensures a.monthly == DocumentOf(stored).monthly.GetOr(map[])
    ensures a.yearly == DocumentOf(stored).yearly.GetOr(map[])
    ensures a.byRegion == DocumentOf(stored).byRegion.GetOr(map[])
    // the browser dimension is never restored
    ensures a.byBrowser == map[] && a.uniqueByBrowser == map[]
  {
    var doc := DocumentOf(stored);
    Aggregate(
      total := doc.total.GetOr(0),
      uniqueTotal := SetOf(doc.uniqueTotal.GetOr([])),
      daily := doc.daily.GetOr(map[]),
      monthly := doc.monthly.GetOr(map[]),
      yearly := doc.yearly.GetOr(map[]),
      uniqueDaily := SetsOf(doc.uniqueDaily.GetOr(map[])),
      uniqueMonthly := SetsOf(doc.uniqueMonthly.GetOr(map[])),
      uniqueYearly := SetsOf(doc.uniqueYearly.GetOr(map[])),
      byRegion := doc.byRegion.GetOr(map[]),
      uniqueByRegion := SetsOf(doc.uniqueByRegion.GetOr(map[])),
      byBrowser := map[],
      uniqueByBrowser := map[])
  }

  /** doc is a document that a save of a may write: the total and every count map as they
      are, every set as a list of exactly its members, each once, in any order, and every map
      of sets with the same keys. */
  ghost predicate SavedAs(a: Aggregate, doc: Document) {
    && doc.total == Some(a.total)
    && doc.uniqueTotal.Some? && Enumerates(doc.uniqueTotal.value, a.uniqueTotal)
    && doc.daily == Some(a.daily) && doc.monthly == Some(a.monthly) && doc.yearly == Some(a.yearly)
    && doc.byRegion == Some(a.byRegion) && doc.byBrowser == Some(a.byBrowser)
    && doc.uniqueDaily.Some? && EnumeratesEach(doc.uniqueDaily.value, a.uniqueDaily)
    && doc.uniqueMonthly.Some? && EnumeratesEach(doc.uniqueMonthly.value, a.uniqueMonthly)
    && doc.uniqueYearly.Some? && EnumeratesEach(doc.uniqueYearly.value, a.uniqueYearly)
    && doc.uniqueByRegion.Some? && EnumeratesEach(doc.uniqueByRegion.value, a.uniqueByRegion)
    && doc.uniqueByBrowser.Some? && EnumeratesEach(doc.uniqueByBrowser.value, a.uniqueByBrowser)
  }

  /** The document `Data.save` writes for an aggregate, with one particular order of each
      list. */
  ghost function Snapshot(a: Aggregate): (doc: Document)
    ensures SavedAs(a, doc)
  {
    Document(
      total := Some(a.total),
      uniqueTotal := Some(ListOf(a.uniqueTotal)),
      daily := Some(a.daily),
      monthly := Some(a.monthly),
      yearly := Some(a.yearly),
      uniqueDaily := Some(ListsOf(a.uniqueDaily)),
      uniqueMonthly := Some(ListsOf(a.uniqueMonthly)),
      uniqueYearly := Some(ListsOf(a.uniqueYearly)),
      byRegion := Some(a.byRegion),
      uniqueByRegion := Some(ListsOf(a.uniqueByRegion)),
      byBrowser := Some(a.byBrowser),
      uniqueByBrowser := Some(ListsOf(a.uniqueByBrowser)))
  }

  /** Lists that hold exactly the members of the sets load back as those sets. */
  lemma SetsOfHoldsMembers(sets: map<string, set<string>>, lists: map<string, seq<string>>)
    requires HoldsMembers(sets, lists)
    ensures SetsOf(lists) == sets
  {
    var r := SetsOf(lists);
    forall k | k in sets ensures r[k] == sets[k] {
      assert forall x :: x in r[k] <==> x in lists[k];
    }
  }

  /** Loading any document a save may write, whatever order its lists are in, gives back the
      aggregate, except for the browser dimension, which a load always empties. */
  lemma LoadAfterAnySave(a: Aggregate, doc: Document)
    requires SavedAs(a, doc)
    ensures Loaded(Parsed(doc)) == a.(byBrowser := map[], uniqueByBrowser := map[])
  {
    assert SetOf(doc.uniqueTotal.value) == a.uniqueTotal;
    SetsOfHoldsMembers(a.uniqueDaily, doc.uniqueDaily.value);
    SetsOfHoldsMembers(a.uniqueMonthly, doc.uniqueMonthly.value);
    SetsOfHoldsMembers(a.uniqueYearly, doc.uniqueYearly.value);
    SetsOfHoldsMembers(a.uniqueByRegion, doc.uniqueByRegion.value);
  }

  /** Loading what a save wrote gives back the aggregate, except for the browser
      dimension. */
  lemma LoadAfterSave(a: Aggregate)
    ensures Loaded(Parsed(Snapshot(a))) == a.(byBrowser := map[], uniqueByBrowser := map[])
  {
    LoadAfterAnySave(a, Snapshot(a));
  }

  /** A total of 5 and visitor "v1" survive a save and a load. */
  lemma SaveLoadScenario(a: Aggregate)
    requires a.total == 5 && "v1" in a.uniqueTotal
    ensures Loaded(Parsed(Snapshot(a))).total == 5
    ensures "v1" in Loaded(Parsed(Snapshot(a))).uniqueTotal
  {
  }

  /** A load normalises: saving a loaded aggregate and loading it again changes nothing. */
  lemma LoadIsStable(stored: Stored)
    ensures Loaded(Parsed(Snapshot(Loaded(stored)))) == Loaded(stored)
  {
    LoadAfterSave(Loaded(stored));
  }

  /** The order in which `Data.load` fills in the keys, and the two key lists it loops over */
  const LoadOrder: seq<Key> := [
    UniqueTotal, UniqueDaily, UniqueMonthly, UniqueYearly, Daily, Monthly, Yearly, ByRegion,
    UniqueByRegion, ByBrowser, UniqueByBrowser, Total]
  const UniqueBucketKeys: seq<Key> := [UniqueDaily, UniqueMonthly, UniqueYearly]
  const CountKeys: seq<Key> := [Daily, Monthly, Yearly, ByRegion]

  /** The stored count map under a count-map key, or `{}` when it is absent */
  function StoredCounts(doc: Document, k: Key): map<string, int>
    requires IsCountMap(k)
  {
    match k
    case Daily => doc.daily.GetOr(map[])
    case Monthly => doc.monthly.GetOr(map[])
    case Yearly => doc.yearly.GetOr(map[])
    case ByRegion => doc.byRegion.GetOr(map[])
    case ByBrowser => doc.byBrowser.GetOr(map[])
  }

  /** The stored list map under a visitor-set-map key, or `{}` when it is absent */
  function StoredSets(doc: Document, k: Key): map<string, seq<string>>
    requires IsVisitorSetMap(k)
  {
    match k
    case UniqueDaily => doc.uniqueDaily.GetOr(map[])
    case UniqueMonthly => doc.uniqueMonthly.GetOr(map[])
    case UniqueYearly => doc.uniqueYearly.GetOr(map[])
    case UniqueByRegion => doc.uniqueByRegion.GetOr(map[])
    case UniqueByBrowser => doc.uniqueByBrowser.GetOr(map[])
  }

  /** Where k stands in LoadOrder */
  function Position(k: Key): (j: nat)
    ensures j < |LoadOrder| && LoadOrder[j] == k
  {
    match k
    case UniqueTotal => 0
    case UniqueDaily => 1
    case UniqueMonthly => 2
    case UniqueYearly => 3
    case Daily => 4
    case Monthly => 5
    case Yearly => 6
    case ByRegion => 7
    case UniqueByRegion => 8
    case ByBrowser => 9
    case UniqueByBrowser => 10
    case Total => 11
  }

  /** raw agrees with target on the first n keys of LoadOrder. */
  ghost predicate Filled(raw: Aggregate, target: Aggregate, n: nat)
    requires n <= |LoadOrder|
  {
    forall j :: 0 <= j < n ==> Lookup(raw, LoadOrder[j]) == Lookup(target, LoadOrder[j])
  }

  /** One key of the loaded aggregate: a visitor-set map is the stored list map, as sets. */
  lemma LoadedVisitorSets(stored: Stored, k: Key)
    requires IsVisitorSetMap(k) && !k.UniqueByBrowser?
    ensures Lookup(Loaded(stored), k) == VisitorSets(SetsOf(StoredSets(DocumentOf(stored), k)))
  {
  }

  /** One key of the loaded aggregate: a count map is the stored one. */
  lemma LoadedCounts(stored: Stored, k: Key)
    requires IsCountMap(k) && !k.ByBrowser?
    ensures Lookup(Loaded(stored), k) == Counts(StoredCounts(DocumentOf(stored), k))
  {
  }

  /** Filling in the next key in LoadOrder with its final value extends the filled prefix. */
  lemma FillNext(raw: Aggregate, target: Aggregate, n: nat, v: Value)
    requires n < |LoadOrder| && Filled(raw, target, n)
    requires Fits(LoadOrder[n], v) && Lookup(target, LoadOrder[n]) == v
    ensures Filled(Put(raw, LoadOrder[n], v), target, n + 1)
  {
    forall j | 0 <= j < n
      ensures Lookup(Put(raw, LoadOrder[n], v), LoadOrder[j]) == Lookup(target, LoadOrder[j])
    {
      assert LoadOrder[j] != LoadOrder[n];
      PutKeepsOthers(raw, LoadOrder[n], v, LoadOrder[j]);
    }
  }

  /** Every key filled in: the aggregates are the same. */
  lemma FilledAll(raw: Aggregate, target: Aggregate)
    requires Filled(raw, target, |LoadOrder|)
    ensures raw == target
  {
    forall k ensures Lookup(raw, k) == Lookup(target, k) {
      var j := Position(k);
      assert LoadOrder[j] == k;
    }
    KeysDetermine(raw, target);
  }

  /** The storage object: holds the aggregate loaded at construction. The storage file's
      contents are passed in as `stored`; the file itself is not modelled. */
  class Data {
    var data: Aggregate

    constructor (stored: Stored)
      ensures data == Loaded(stored)
    {
      var raw := Load(stored);
      data := raw;
    }

    /** `load`: normalise the stored document into the aggregate, key by key. */
    static method Load(stored: Stored) returns (raw: Aggregate)
      ensures raw == Loaded(stored)
    {
      ghost var target := Loaded(stored);
      assert UniqueBucketKeys == LoadOrder[1..4] && CountKeys == LoadOrder[4..8];
      var doc := DocumentOf(stored);
      raw := Blank;
      var total := doc.total;
      FillNext(raw, target, 0, Visitors(SetOf(doc.uniqueTotal.GetOr([]))));
      raw := Put(raw, UniqueTotal, Visitors(SetOf(doc.uniqueTotal.GetOr([]))));
      for i := 0 to |UniqueBucketKeys|
        invariant Filled(raw, target, 1 + i)
      {
        var key := UniqueBucketKeys[i];
        LoadedVisitorSets(stored, key);
        FillNext(raw, target, 1 + i, VisitorSets(SetsOf(StoredSets(doc, key))));
        raw := Put(raw, key, VisitorSets(SetsOf(StoredSets(doc, key))));
      }
      for i := 0 to |CountKeys|
        invariant Filled(raw, target, 4 + i)
      {
        var key := CountKeys[i];
        LoadedCounts(stored, key);
        FillNext(raw, target, 4 + i, Counts(StoredCounts(doc, key)));
        raw := Put(raw, key, Counts(StoredCounts(doc, key)));
      }
      FillNext(raw, target, 8, VisitorSets(SetsOf(doc.uniqueByRegion.GetOr(map[]))));
      raw := Put(raw, UniqueByRegion, VisitorSets(SetsOf(doc.uniqueByRegion.GetOr(map[]))));
      FillNext(raw, target, 9, Counts(map[]));
      raw := Put(raw, ByBrowser, Counts(map[]));
      FillNext(raw, target, 10, VisitorSets(map[]));
      raw := Put(raw, UniqueByBrowser, VisitorSets(map[]));
      if total.None? {
        total := Some(0);
      }
      FillNext(raw, target, 11, Count(total.value));
      raw := Put(raw, Total, Count(total.value));
      FilledAll(raw, target);
    }

    /** `__getitem__` */
    function Get(key: Key): (v: Value)
      reads this
      ensures Fits(key, v)
    {
      Lookup(data, key)
    }

    /** `__setitem__` */
    method Set(key: Key, v: Value)
      requires Fits(key, v)
      modifies this
      ensures data == Put(old(data), key, v)
      ensures Get(key) == v
      ensures forall k :: k != key ==> Get(k) == old(Get(k))
    {
      data := Put(data, key, v);
    }
  }
}
