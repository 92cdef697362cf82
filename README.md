# Visit counter: persistence transform and statistics query

This project models the core of a small visit counter. The counter keeps one aggregate of
visits: a total, the set of all visitor keys, per-day, per-month, per-year, per-region and
per-browser visit counts, and the matching unique-visitor sets. Two pieces are modelled:

- the persistent store (`data.py`): `Data.load` turns the parsed storage document into the
  aggregate, `Data.save` flattens the aggregate back into a document, and
  `__getitem__`/`__setitem__` give keyed access to the aggregate;
- the statistics query (`statistics.py`): `Statistics.get_stats(period)` builds a report
  from the aggregate for one of six period tokens, or an error marker.

Modules, one per concept:

- `Storage` (`storage.dfy`): the parsed storage document as a record of optional fields
  (sets stored as `seq<string>`, bucket maps as `map<string, int>` and
  `map<string, seq<string>>`), and `Stored`, what reading the file can yield: no file, an
  empty file, UTF-8 text that does not parse as JSON, or a parsed object.
- `Visits` (`visits.dfy`): the aggregate as a record with one field per top-level key, the
  twelve keys as a datatype `Key`, the shapes a key can hold as `Value`, and keyed
  lookup and update (`Lookup`, `Put`).
- `DataStore` (`data.dfy`): the load transform as a specification function `Loaded` and as
  the imperative `Data.Load`, which fills in the keys one at a time and loops over the same
  two key lists as the source; the save transform `Snapshot`; the `Data` class holding the
  aggregate; the load/save round trip.
- `Statistics` (`statistics.dfy`): `GetStats` and its lemmas.

Behaviour of the code worth knowing: `get_stats` accepts six tokens, including
`by_browser`; an unknown period returns `{'error': 'Invalid period'}`, modelled as
`Error("Invalid period")`, rather than raising; `load` always empties the browser maps,
whatever the file holds; the count maps keep the stored values unchecked.

## Model

| member | source | states |
|---|---|---|
| `DataStore.SetOf` | data.py:21 | a stored list becomes the set of exactly its elements; duplicates collapse |
| `DataStore.SetsOf` | data.py:24 | a stored map of lists becomes a map of sets with the same keys, each set holding exactly the members of that key's list |
| `DataStore.Loaded` | data.py:11-37 | no file, an empty file, UTF-8 text that is not valid JSON, or `{}` load as a first run (total 0, every set and map empty); a stored total is kept and an absent one is 0; the unique lists load as sets of exactly their members; the four count maps keep their stored keys and values; absent keys load as empty; the browser maps are always empty |
| `DataStore.Data.Load` | data.py:11-37 | the aggregate built key by key, through the two key loops and the conditional total, is exactly `Loaded` of what the file holds |
| `DataStore.Data.constructor` | data.py:7-9 | a new store holds the aggregate loaded from its file |
| `DataStore.ListOf` | data.py:42 | `list(s)` lists every member of the set exactly once (order left open) |
| `DataStore.ListsOf` | data.py:46-52 | a map of sets becomes a map of lists with the same keys, each list enumerating its set |
| `DataStore.Snapshot` | data.py:39-53 | the document is one that save may write (`SavedAs`): save writes the total unchanged, every count map unchanged, `unique_total` as a list of exactly its members, and every unique-set map with the same keys and each list holding exactly that set's members |
| `DataStore.SetsOfHoldsMembers` | data.py:24 | lists holding exactly the members of a map of sets load back as that map |
| `DataStore.LoadAfterAnySave` | data.py:11-53 | loading any document save may write, with its lists in any order, gives back the same total, unique sets and count maps; only the browser maps are emptied |
| `DataStore.LoadAfterSave` | data.py:11-53 | the same for the snapshot `Snapshot` picks |
| `DataStore.LoadIsStable` | data.py:11-53 | save then load after a load changes nothing |
| `DataStore.SaveLoadScenario` | tests.py:37-44 | a total of 5 and visitor "v1" survive save and load |
| `Visits.Lookup` | data.py:58-59 | `data[key]` holds a value of the shape of that key |
| `Visits.Put` | data.py:61-62 | after `data[key] = v`, `data[key]` is `v` |
| `Visits.PutKeepsOthers` | data.py:61-62 | `data[key] = v` leaves every other key as it was |
| `Visits.KeysDetermine` | data.py:40-53 | the twelve top-level keys make up the whole aggregate: two aggregates equal on every key are equal |
| `DataStore.Data.Get` | data.py:58-59 | `__getitem__` returns the value held under the key, of that key's shape |
| `DataStore.Data.Set` | data.py:61-62 | `__setitem__` makes the key hold the value and leaves every other key unchanged |
| `Statistics.GetStats` | statistics.py:5-53 | the result is the error marker `Invalid period` exactly when the period is not one of the six tokens; `"total"` gives the total and the size of `unique_total`; each of `yearly`, `monthly`, `daily`, `regionally`, `by_browser` gives a table whose keys are exactly the matching count map's keys, each entry carrying that count and the size of the matching unique set, or 0 when there is none; the period defaults to `"total"` |
| `Statistics.StatsSurviveReload` | statistics.py:12-42 | every report except `by_browser` is the same after a save and a load |
| `Statistics.BrowserStatsAfterLoad` | statistics.py:44-50 | after any load the `by_browser` report is the empty table |
| `Statistics.FirstRunStats` | statistics.py:5-53 | on a first run (no file, an empty file, UTF-8 text that is not valid JSON, or `{}`) the total report is `{0, 0}`, every table is empty and an unknown period is still an error |
| `Statistics.TotalScenario` | statistics.py:6-10 | a total of 10 with visitors `{v1, v2}` reports `{total: 10, unique: 2}` |
| `Statistics.RegionScenario` | statistics.py:36-42 | counts `{Russia: 2, Netherlands: 1}` with one visitor each report as `{Russia: {2, 1}, Netherlands: {1, 1}}` |

## Left out

- File and JSON input/output (`os.path.exists`, `getsize`, `open`, `json.load`, `json.dump` with `ensure_ascii` and `indent`): the file's contents are the parameter `stored`, and save yields the document it would write. The storage path and its default `visits.json` are therefore not modelled either, and `Load` is a static method of `Data`.
- A top-level JSON value that parses but is not an object, and stored values of the wrong JSON type (a `null` list, a non-integer total or count): the source fails or keeps them unchecked; the document type admits only well-shaped values.
- Top-level keys of the stored document outside the twelve known ones: the source keeps them in memory and drops them on save; the document record does not hold them.
- The order of the lists that save produces from sets: Python leaves it unspecified; `SavedAs` admits every order and the round trip `LoadAfterAnySave` holds for all of them, while `ListOf` picks one order for `Snapshot`.
- `defaultdict` factories: the loaded maps create an empty entry when read with a missing key; nothing in the modelled core reads them that way (`get_stats` uses `.get`), so plain maps are used.
- `DataStore.Data.Set`: requires the value to have the shape of the key; Python accepts any value under any key, which the typed aggregate cannot hold.
- `Visits.Put`: carries the same shape requirement as `DataStore.Data.Set`, for the same reason.
- A storage file that is not valid UTF-8: `load` raises `UnicodeDecodeError`, which data.py:16 does not catch, so constructing `Data` fails; `Stored` has no value for it.
- `DataStore.Data.Get`: a key outside the twelve raises `KeyError` in `__getitem__`; `Key` admits only the twelve, so that error path is not modelled.
- `DataStore.Data.Get`: returns a copy of the value under the key, not the stored object itself. Python's `__getitem__` returns the live set or dictionary, and callers change the aggregate through it (`tests.py` calls `data_store['unique_total'].add('v1')` before saving); in the model that step is written `Set(k, f(Get(k)))`, here `Set(UniqueTotal, Visitors(Get(UniqueTotal).members + {"v1"}))`, and the aliasing itself is not modelled.
- `Statistics` keeps a reference to the store's dictionary, so later `__setitem__` calls show in its reports; `GetStats` is a function of the aggregate at the time of the call, which covers that, but the aliasing itself is not modelled.
- `counter.py` (the web handler and its global counter) contains no aggregate logic.
- `tests.py` calls `counter.VisitCounter` (`add_visit`, `get_stats`), which `counter.py` does not define, so no recording operation is modelled.
- Concurrency, locking and atomic replacement of the file on save: the source has none.
