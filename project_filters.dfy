/**
 * The project filter bar: a record of status, sort key and search text;
 * every change replaces one entry and reports the whole new record to the
 * parent exactly once. The entries hold whatever text the control gave.
 */
module ProjectFilters {
  datatype FilterOptions = FilterOptions(status: string, sortBy: string, search: string)

  /** The keys of FilterOptions. */
  datatype Key = Status | SortBy | Search

  const INITIAL: FilterOptions := FilterOptions("all", "recent", "")

  function Get(f: FilterOptions, key: Key): string {
    match key
    case Status => f.status
    case SortBy => f.sortBy
    case Search => f.search
  }

  /** `{ ...filters, [key]: value }` */
  function Update(f: FilterOptions, key: Key, value: string): FilterOptions {
    match key
    case Status => f.(status := value)
    case SortBy => f.(sortBy := value)
    case Search => f.(search := value)
  }

  class FilterBar {
    var filters: FilterOptions
    /** Every record passed to onFilterChange, oldest first. */
    var reported: seq<FilterOptions>

    constructor ()
      ensures filters == INITIAL && reported == []
    {
      filters := INITIAL;
      reported := [];
    }

    /** handleFilterChange: store the new record and report that same record once. */
    method HandleFilterChange(key: Key, value: string)
      modifies this
      ensures filters == Update(old(filters), key, value)
      ensures reported == old(reported) + [filters]
    {
      var next := Update(filters, key, value);
      filters := next;
      reported := reported + [next];
    }
  }

  /** An update sets its key and leaves the other two entries alone. */
  lemma UpdateOnlyKey(f: FilterOptions, key: Key, value: string, other: Key)
    ensures Get(Update(f, key, value), key) == value
    ensures other != key ==> Get(Update(f, key, value), other) == Get(f, other)
  {
  }

  /** Setting a key to its current value changes nothing; setting it twice is setting it once. */
  lemma UpdateIdempotent(f: FilterOptions, key: Key, value: string)
    ensures Update(f, key, Get(f, key)) == f
    ensures Update(Update(f, key, value), key, value) == Update(f, key, value)
  {
  }

  /** Updates of different keys commute. */
  lemma UpdatesCommute(f: FilterOptions, k1: Key, v1: string, k2: Key, v2: string)
    requires k1 != k2
    ensures Update(Update(f, k1, v1), k2, v2) == Update(Update(f, k2, v2), k1, v1)
  {
  }
}
