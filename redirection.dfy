/** Per-key counters of the daily statistics maps. */
module Counters {
  /** The count stored under `key`, or 0 when the key is absent (`m[key] || 0`). */
  function Get(counts: map<string, int>, key: string): int
  {
    if key in counts then counts[key] else 0
  }

  /** `m[key] = m[key] || 0; m[key] += 1`. */
  function Bump(counts: map<string, int>, key: string): (bumped: map<string, int>)
    ensures bumped.Keys == counts.Keys + {key}
    ensures Get(bumped, key) == Get(counts, key) + 1
  {
    counts[key := Get(counts, key) + 1]
  }

  /** Bumping one key leaves every other count as it was. */
  lemma BumpKeepsOthers(counts: map<string, int>, key: string, k: string)
    requires k != key
    ensures Get(Bump(counts, key), k) == Get(counts, k)
  {
  }
}

/** What `redirectToUrl` is given and what it navigates to. */
module Redirection {
  import opened Wrappers
  import opened Budgets

  /** Statistics key of a global-budget limit redirect. */
  const GLOBAL_BUDGET_KEY: string := "Global Budget"
  /** Statistics key used when the caller names no website. */
  const DEFAULT_STAT_KEY: string := "Others"
  const HTTPS: string := "https://"
  const HTTP: string := "http://"

  /** Why a tab is redirected; shown on the inspiration page. The text of a scheduled
      block names its range and says whether it belongs to the global budget. */
  datatype Reason =
    | ScheduledBlock(range: Range, onGlobalBudget: bool, host: string)
    | SiteLimitReached(host: string)
    | GlobalLimitReached(host: string)

  /** Where a redirected tab goes: the extension's inspiration page, carrying the reason
      when there is one, or a web address. */
  datatype Target = InspirationPage(reason: Option<Reason>) | Web(url: string)

  /** One `browser.tabs.update` call. */
  datatype Navigation = Navigation(tabId: int, target: Target)

  /** One call of `redirectToUrl` as the engine makes it: redirect setting, statistics key, reason. */
  datatype Redirect = Redirect(url: string, website: string, reason: Reason)

  /** A host as it reads inside a reason text: JavaScript renders a null host as "null". */
  function HostText(host: Option<string>): string
  {
    if host.Some? then host.value else "null"
  }

  predicate StartsWith(s: string, prefix: string)
  {
    |prefix| <= |s| && s[..|prefix|] == prefix
  }

  predicate EndsWith(s: string, suffix: string)
  {
    |suffix| <= |s| && s[|s| - |suffix|..] == suffix
  }

  /** JavaScript `s.includes(part)`. */
  predicate Contains(s: string, part: string)
    decreases |s|
  {
    StartsWith(s, part) || (|s| > 0 && Contains(s[1..], part))
  }

  predicate HasScheme(url: string)
  {
    Contains(url, HTTPS) || Contains(url, HTTP)
  }

  /** The statistics key: the given website, or "Others" when the argument is left out. */
  function StatKey(website: Option<string>): (key: string)
    ensures website.Some? ==> key == website.value
    ensures website.None? ==> key == DEFAULT_STAT_KEY
  {
    if website.Some? then website.value else DEFAULT_STAT_KEY
  }

  /** The page a redirect opens: the inspiration page for an empty setting, otherwise the
      setting itself, given an https scheme when it names none. */
  function RedirectTarget(url: string, redirectReason: Option<Reason>): Target
  {
    if url == "" then InspirationPage(redirectReason)
    else if HasScheme(url) then Web(url)
    else Web(HTTPS + url)
  }

  /** The inspiration page exactly for an empty setting; otherwise a web address that has a
      scheme and ends with the setting: the setting itself when it already names a scheme,
      else exactly "https://" followed by the setting. */
  lemma RedirectTargetProperties(url: string, redirectReason: Option<Reason>, target: Target)
    requires target == RedirectTarget(url, redirectReason)
    ensures target.InspirationPage? <==> url == ""
    ensures target.InspirationPage? ==> target.reason == redirectReason
    ensures target.Web? ==> HasScheme(target.url) && EndsWith(target.url, url)
    ensures target.Web? && HasScheme(url) ==> target.url == url
    ensures target.Web? && !HasScheme(url) ==> StartsWith(target.url, HTTPS)
    ensures target.Web? && !HasScheme(url) ==> target.url == HTTPS + url
  {
    if url != "" && !HasScheme(url) {
      assert StartsWith(HTTPS + url, HTTPS);
    }
  }

  /** Redirecting again to a web page the engine chose leads to the same page. */
  lemma RedirectTargetIsStable(url: string, redirectReason: Option<Reason>, again: Option<Reason>)
    requires RedirectTarget(url, redirectReason).Web?
    ensures RedirectTarget(RedirectTarget(url, redirectReason).url, again) == RedirectTarget(url, redirectReason)
  {
    RedirectTargetProperties(url, redirectReason, RedirectTarget(url, redirectReason));
  }
}
