/** The flat form of the visit aggregate: the document the storage file holds once it has been
    parsed. Sets of visitors are stored as lists, bucket maps as key/value records. */
module Storage {

  datatype Option<+T> = None | Some(value: T) {
    /** `dict.get(key, default)` for one top-level key of the document */
    function GetOr(default: T): T {
      match this
      case Some(v) => v
      case None => default
    }
  }

  /** A parsed storage document. Every top-level key may be absent. */
  datatype Document = Document(
    total: Option<int>,
    uniqueTotal: Option<seq<string>>,
    daily: Option<map<string, int>>,
    monthly: Option<map<string, int>>,
    yearly: Option<map<string, int>>,
    uniqueDaily: Option<map<string, seq<string>>>,
    uniqueMonthly: Option<map<string, seq<string>>>,
    uniqueYearly: Option<map<string, seq<string>>>,
    byRegion: Option<map<string, int>>,
    uniqueByRegion: Option<map<string, seq<string>>>,
    byBrowser: Option<map<string, int>>,
    uniqueByBrowser: Option<map<string, seq<string>>>)

  /** The document `{}` */
  const EmptyDocument: Document :=
    Document(None, None, None, None, None, None, None, None, None, None, None, None)

  /** What reading the storage file yields: no file, a file of size zero, UTF-8 text that
      is not valid JSON, or a parsed top-level object. */
  datatype Stored = Missing | EmptyFile | Malformed | Parsed(doc: Document)
}
