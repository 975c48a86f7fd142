/** Optional values, for the places where the background script has `null` or a missing key. */
module Wrappers {
  datatype Option<+T> = None | Some(value: T)
}

/** The persisted entities that the quota enforcement engine reads and writes. */
module Budgets {
  import opened Wrappers

  /** Number of entries of `timeAllowed`, indexed Monday = 0 .. Sunday = 6. */
  const DAYS_PER_WEEK: int := 7
  /** Allowance sentinel: the budget does not restrict that weekday. */
  const UNRESTRICTED: int := -1

  /** A scheduled block: the minutes of the day from `start` (inclusive) to `end`
      (exclusive), wrapping past midnight when `end < start`; `days[d]` says whether
      the block applies on weekday `d`. */
  datatype Range = Range(start: int, end: int, days: seq<bool>)

  /** A per-site budget, stored under its hostname in the site map. */
  datatype Site = Site(
    website: string,
    timeAllowed: seq<int>,
    totalTime: int,
    lastAccessedDate: string,
    blockIncognito: bool,
    redirectUrl: string,
    scheduledBlockRanges: seq<Range>,
    allowedPaths: seq<string>)

  /** The single global budget, shared by the hosts in `websites`. */
  datatype Global = Global(
    websites: set<string>,
    timeAllowed: seq<int>,
    totalTime: int,
    lastAccessedDate: string,
    redirectUrl: string,
    scheduledBlockRanges: seq<Range>)

  /** Today's statistics: redirects and tracked seconds per key, and the day they belong to. */
  datatype Daily = Daily(blockedPerDay: map<string, int>, restrictedTimePerDay: map<string, int>, day: string)

  /** A browser tab as the engine sees it: `host` is the hostname and domain of its URL
      (None when the URL does not parse), `path` its path and query ("" when there is none). */
  datatype Tab = Tab(id: int, host: Option<string>, path: string, incognito: bool)

  predicate WellFormedSite(site: Site)
  {
    |site.timeAllowed| == DAYS_PER_WEEK
  }

  predicate WellFormedGlobal(global: Global)
  {
    |global.timeAllowed| == DAYS_PER_WEEK
  }

  predicate SitesWellFormed(sites: map<string, Site>)
  {
    forall host :: host in sites ==> WellFormedSite(sites[host])
  }
}
