/** The state of the background script as one value, and each of its steps as a function
    of that value: the specification the `Engine` methods are proved against. */
module Transitions {
  import opened Wrappers
  import opened Budgets
  import opened Counters
  import opened Redirection
  import opened Policy

  /** `activeBlockTimer`: no handle, a live 1-second interval with what its closure holds,
      or an interval cleared by a limit while the handle was left non-null. */
  datatype Timer = Idle | Running(tracking: Tracking) | ClearedNotNulled

  /** The toolbar badge: empty, or the remaining seconds handed to the badge formatter. */
  datatype Badge = Blank | Remaining(seconds: int)

  /** The stored entities, the timer handles and the navigations issued so far. */
  datatype EngineState = EngineState(
    sites: map<string, Site>,
    siteOrder: seq<string>,
    global: Global,
    daily: Daily,
    historicalBlockedPerDay: map<string, map<string, int>>,
    historicalRestrictedTimePerDay: map<string, map<string, int>>,
    timer: Timer,
    debounced: Option<Tab>,
    badge: Badge,
    navigations: seq<Navigation>)

  /** Budgets have seven allowances, `siteOrder` lists exactly the keys of the site map, each
      once (the order of `Object.keys`), and a running timer tracks at least one budget. */
  predicate Consistent(s: EngineState)
  {
    && SitesWellFormed(s.sites)
    && WellFormedGlobal(s.global)
    && (forall i :: 0 <= i < |s.siteOrder| ==> s.siteOrder[i] in s.sites)
    && (forall host :: host in s.sites ==> host in s.siteOrder)
    && (forall i, j :: 0 <= i < j < |s.siteOrder| ==> s.siteOrder[i] != s.siteOrder[j])
    && (s.timer.Running? ==> TrackingWellFormed(s.timer.tracking))
  }

  /** `checkUrlBlockStatus` does anything at all only when a site or a global host is configured. */
  predicate Configured(s: EngineState)
  {
    |s.siteOrder| > 0 || |s.global.websites| > 0
  }

  // ----- redirectToUrl -----

  /** One redirect: one more blocked count under its key, one more navigation of the tab. */
  function Redirected(s: EngineState, tabId: int, url: string, website: Option<string>,
                      redirectReason: Option<Reason>): (r: EngineState)
    ensures r.navigations == s.navigations + [Navigation(tabId, RedirectTarget(url, redirectReason))]
    ensures r == s.(daily := s.daily.(blockedPerDay := r.daily.blockedPerDay), navigations := r.navigations)
  {
    s.(daily := s.daily.(blockedPerDay := Bump(s.daily.blockedPerDay, StatKey(website))),
       navigations := s.navigations + [Navigation(tabId, RedirectTarget(url, redirectReason))])
  }

  function RedirectedBy(s: EngineState, tabId: int, r: Redirect): EngineState
  {
    Redirected(s, tabId, r.url, Some(r.website), Some(r.reason))
  }

  /** How many of the redirects count under `key`. */
  function CountKey(redirects: seq<Redirect>, key: string): nat
  {
    if redirects == [] then 0
    else (if redirects[0].website == key then 1 else 0) + CountKey(redirects[1..], key)
  }

  function NavigationsTo(tabId: int, redirects: seq<Redirect>): seq<Navigation>
  {
    if redirects == [] then []
    else [Navigation(tabId, RedirectTarget(redirects[0].url, Some(redirects[0].reason)))]
         + NavigationsTo(tabId, redirects[1..])
  }

  /** The redirects of one evaluation or tick, performed in order. */
  function RedirectedAll(s: EngineState, tabId: int, redirects: seq<Redirect>): (r: EngineState)
    decreases |redirects|
    ensures r == s.(daily := s.daily.(blockedPerDay := r.daily.blockedPerDay), navigations := r.navigations)
  {
    if redirects == [] then s
    else RedirectedAll(RedirectedBy(s, tabId, redirects[0]), tabId, redirects[1..])
  }

  /** The tab is navigated once per redirect, in order. */
  lemma {:induction false} RedirectedAllNavigations(s: EngineState, tabId: int, redirects: seq<Redirect>)
    decreases |redirects|
    ensures RedirectedAll(s, tabId, redirects).navigations == s.navigations + NavigationsTo(tabId, redirects)
  {
    if redirects != [] {
      var first := RedirectedBy(s, tabId, redirects[0]);
      RedirectedAllNavigations(first, tabId, redirects[1..]);
      assert first.navigations == s.navigations + NavigationsTo(tabId, redirects[..1]);
      assert NavigationsTo(tabId, redirects) == NavigationsTo(tabId, redirects[..1]) + NavigationsTo(tabId, redirects[1..]);
    }
  }

  /** One redirect counts one block under its statistics key and no other. */
  lemma RedirectedCounts(s: EngineState, tabId: int, url: string, website: Option<string>,
                         redirectReason: Option<Reason>, k: string)
    ensures Get(Redirected(s, tabId, url, website, redirectReason).daily.blockedPerDay, k)
              == Get(s.daily.blockedPerDay, k) + (if k == StatKey(website) then 1 else 0)
  {
  }

  /** Each key's blocked count grows by the number of redirects under that key. */
  lemma {:induction false} RedirectedAllCounts(s: EngineState, tabId: int, redirects: seq<Redirect>, k: string)
    decreases |redirects|
    ensures Get(RedirectedAll(s, tabId, redirects).daily.blockedPerDay, k)
              == Get(s.daily.blockedPerDay, k) + CountKey(redirects, k)
  {
    if redirects != [] {
      var first := RedirectedBy(s, tabId, redirects[0]);
      RedirectedCounts(s, tabId, redirects[0].url, Some(redirects[0].website), Some(redirects[0].reason), k);
      RedirectedAllCounts(first, tabId, redirects[1..], k);
    }
  }

  lemma {:induction false} RedirectedAllAppend(s: EngineState, tabId: int, first: seq<Redirect>, second: seq<Redirect>)
    decreases |first|
    ensures RedirectedAll(s, tabId, first + second) == RedirectedAll(RedirectedAll(s, tabId, first), tabId, second)
  {
    if first == [] {
      assert first + second == second;
    } else {
      assert (first + second)[0] == first[0];
      assert (first + second)[1..] == first[1..] + second;
      RedirectedAllAppend(RedirectedBy(s, tabId, first[0]), tabId, first[1..], second);
    }
  }

  lemma RedirectedAllOne(s: EngineState, tabId: int, r: Redirect)
    ensures RedirectedAll(s, tabId, [r]) == RedirectedBy(s, tabId, r)
  {
    assert [r][1..] == [];
  }

  // ----- stopCurrentBlocking -----

  /** Clears and forgets any handle, and blanks the badge if there was one. */
  function Stopped(s: EngineState): (r: EngineState)
    ensures r.timer == Idle
    ensures r.badge == (if s.timer == Idle then s.badge else Blank)
    ensures r == s.(timer := Idle, badge := r.badge)
  {
    if s.timer != Idle then s.(timer := Idle, badge := Blank) else s
  }

  /** Stopping twice is stopping once. */
  lemma StopIsIdempotent(s: EngineState)
    ensures Stopped(Stopped(s)) == Stopped(s)
  {
  }

  // ----- resetDailyTimers, updateHistoricalData, the global rollover -----

  function ResetSite(site: Site, today: string): Site
  {
    site.(totalTime := 0, lastAccessedDate := today)
  }

  function ResetSites(sites: map<string, Site>, today: string): (reset: map<string, Site>)
    ensures reset.Keys == sites.Keys
    ensures forall host :: host in sites ==> reset[host] == ResetSite(sites[host], today)
  {
    map host | host in sites :: ResetSite(sites[host], today)
  }

  /** Files today's two statistics maps under their day and starts empty ones for `today`. */
  function Archived(s: EngineState, today: string): EngineState
  {
    s.(historicalBlockedPerDay := s.historicalBlockedPerDay[s.daily.day := s.daily.blockedPerDay],
       historicalRestrictedTimePerDay := s.historicalRestrictedTimePerDay[s.daily.day := s.daily.restrictedTimePerDay],
       daily := Daily(map[], map[], today))
  }

  /** The rollover test looks at the date of the first site in key order only. */
  predicate FirstSiteStale(s: EngineState, today: string)
  {
    |s.siteOrder| > 0 && s.siteOrder[0] in s.sites && s.sites[s.siteOrder[0]].lastAccessedDate != today
  }

  predicate GlobalStale(s: EngineState, today: string)
  {
    s.global.lastAccessedDate != today
  }

  /** The rollover at the start of `checkUrlBlockStatus`. */
  function RolledOver(s: EngineState, today: string): (r: EngineState)
    requires Consistent(s)
    ensures Consistent(r)
  {
    var afterSites := if FirstSiteStale(s, today) then Archived(s.(sites := ResetSites(s.sites, today)), today) else s;
    if GlobalStale(afterSites, today) then
      Archived(afterSites.(global := afterSites.global.(lastAccessedDate := today, totalTime := 0)), today)
    else afterSites
  }

  /** What the rollover resets, and what it leaves alone. */
  lemma RolloverEffects(s: EngineState, today: string)
    requires Consistent(s)
    ensures var r := RolledOver(s, today);
            && r.siteOrder == s.siteOrder && r.sites.Keys == s.sites.Keys
            && r.timer == s.timer && r.debounced == s.debounced && r.badge == s.badge && r.navigations == s.navigations
            // every site budget is reset when the first site's date is stale, none otherwise
            && (FirstSiteStale(s, today) ==> forall host :: host in s.sites ==> r.sites[host] == ResetSite(s.sites[host], today))
            && (!FirstSiteStale(s, today) ==> r.sites == s.sites)
            && r.global.lastAccessedDate == today
            && r.global == (if GlobalStale(s, today) then s.global.(totalTime := 0, lastAccessedDate := today) else s.global)
            && (!FirstSiteStale(s, today) && !GlobalStale(s, today) ==> r == s)
  {
    var r := RolledOver(s, today);
    var afterSites := if FirstSiteStale(s, today) then Archived(s.(sites := ResetSites(s.sites, today)), today) else s;
    assert afterSites.global == s.global && afterSites.sites.Keys == s.sites.Keys;
    if GlobalStale(s, today) {
      assert r == Archived(afterSites.(global := s.global.(lastAccessedDate := today, totalTime := 0)), today);
    } else {
      assert r == afterSites;
    }
  }

  /** Either rollover files the statistics under their old day and empties them; the other
      days of the history stay as they were. */
  lemma RolloverArchives(s: EngineState, today: string)
    requires Consistent(s)
    ensures var r := RolledOver(s, today);
            && (FirstSiteStale(s, today) || GlobalStale(s, today) ==> r.daily == Daily(map[], map[], today))
            && ((FirstSiteStale(s, today) || GlobalStale(s, today)) && s.daily.day != today ==>
                  && s.daily.day in r.historicalBlockedPerDay && r.historicalBlockedPerDay[s.daily.day] == s.daily.blockedPerDay
                  && s.daily.day in r.historicalRestrictedTimePerDay
                  && r.historicalRestrictedTimePerDay[s.daily.day] == s.daily.restrictedTimePerDay)
            && (forall d :: d in s.historicalBlockedPerDay && d != s.daily.day && d != today ==>
                  d in r.historicalBlockedPerDay && r.historicalBlockedPerDay[d] == s.historicalBlockedPerDay[d])
            && (forall d :: d in s.historicalRestrictedTimePerDay && d != s.daily.day && d != today ==>
                  d in r.historicalRestrictedTimePerDay && r.historicalRestrictedTimePerDay[d] == s.historicalRestrictedTimePerDay[d])
  {
    var r := RolledOver(s, today);
    var reset := s.(sites := ResetSites(s.sites, today));
    var afterSites := if FirstSiteStale(s, today) then Archived(reset, today) else s;
    if FirstSiteStale(s, today) {
      ArchivedFiles(reset, today);
    }
    if GlobalStale(s, today) {
      var zeroed := afterSites.(global := s.global.(lastAccessedDate := today, totalTime := 0));
      ArchivedFiles(zeroed, today);
      assert r == Archived(zeroed, today);
    } else {
      assert r == afterSites;
    }
  }

  /** One archive files the day's statistics under their day and touches no other day. */
  lemma ArchivedFiles(s: EngineState, today: string)
    ensures var r := Archived(s, today);
            && r.daily == Daily(map[], map[], today)
            && s.daily.day in r.historicalBlockedPerDay && r.historicalBlockedPerDay[s.daily.day] == s.daily.blockedPerDay
            && s.daily.day in r.historicalRestrictedTimePerDay
            && r.historicalRestrictedTimePerDay[s.daily.day] == s.daily.restrictedTimePerDay
            && (forall d :: d in s.historicalBlockedPerDay && d != s.daily.day ==>
                  d in r.historicalBlockedPerDay && r.historicalBlockedPerDay[d] == s.historicalBlockedPerDay[d])
            && (forall d :: d in s.historicalRestrictedTimePerDay && d != s.daily.day ==>
                  d in r.historicalRestrictedTimePerDay && r.historicalRestrictedTimePerDay[d] == s.historicalRestrictedTimePerDay[d])
  {
  }

  /** Rolling over twice on the same day changes nothing more. */
  lemma RolloverIsIdempotent(s: EngineState, today: string)
    requires Consistent(s)
    ensures RolledOver(RolledOver(s, today), today) == RolledOver(s, today)
  {
    var r := RolledOver(s, today);
    if FirstSiteStale(s, today) {
      assert r.sites[r.siteOrder[0]] == ResetSite(s.sites[s.siteOrder[0]], today);
    }
    assert !FirstSiteStale(r, today) && !GlobalStale(r, today);
  }

  // ----- checkUrlBlockStatus -----

  /** The remaining seconds the badge shows: of the site budget when one is tracked,
      of the global budget otherwise. */
  function RemainingSeconds(t: Tracking, weekday: int): int
    requires TrackingWellFormed(t) && 0 <= weekday < DAYS_PER_WEEK
  {
    if t.site.Some? then t.site.value.timeAllowed[weekday] - t.site.value.totalTime
    else t.global.value.timeAllowed[weekday] - t.global.value.totalTime
  }

  /** A timer for `t` only if no handle is held, and the badge of the tracked budget. */
  function Tracked(s: EngineState, t: Tracking, weekday: int): EngineState
    requires TrackingWellFormed(t) && 0 <= weekday < DAYS_PER_WEEK
  {
    s.(timer := if s.timer.Idle? then Running(t) else s.timer, badge := Remaining(RemainingSeconds(t, weekday)))
  }

  /** The policy's redirects, then the tracking it asks for. */
  function Enforced(s: EngineState, tab: Tab, weekday: int, now: int): EngineState
    requires SitesWellFormed(s.sites) && WellFormedGlobal(s.global) && 0 <= weekday < DAYS_PER_WEEK
  {
    var v := Evaluate(s.sites, s.global, tab, weekday, now);
    var redirected := RedirectedAll(s, tab.id, v.redirects);
    if v.track.None? then redirected
    else
      EvaluateTracking(s.sites, s.global, tab, weekday, now, v);
      Tracked(redirected, v.track.value, weekday)
  }

  /** Enforcing the policy performs its redirects in order, starts a timer only when no
      handle is held, shows the tracked budget's remaining seconds, and changes nothing else. */
  lemma EnforcedEffects(s: EngineState, tab: Tab, weekday: int, now: int)
    requires Consistent(s) && 0 <= weekday < DAYS_PER_WEEK
    ensures var r := Enforced(s, tab, weekday, now);
            var v := Evaluate(s.sites, s.global, tab, weekday, now);
            && Consistent(r)
            && r.navigations == s.navigations + NavigationsTo(tab.id, v.redirects)
            && (forall k :: Get(r.daily.blockedPerDay, k) == Get(s.daily.blockedPerDay, k) + CountKey(v.redirects, k))
            && r.timer == (if s.timer.Idle? && v.track.Some? then Running(v.track.value) else s.timer)
            && r.badge == (if v.track.Some? then Remaining(RemainingSeconds(v.track.value, weekday)) else s.badge)
            && r == s.(daily := s.daily.(blockedPerDay := r.daily.blockedPerDay), navigations := r.navigations,
                       timer := r.timer, badge := r.badge)
  {
    var v := Evaluate(s.sites, s.global, tab, weekday, now);
    EvaluateTracking(s.sites, s.global, tab, weekday, now, v);
    RedirectedAllNavigations(s, tab.id, v.redirects);
    forall k ensures Get(Enforced(s, tab, weekday, now).daily.blockedPerDay, k)
                     == Get(s.daily.blockedPerDay, k) + CountKey(v.redirects, k) {
      RedirectedAllCounts(s, tab.id, v.redirects, k);
    }
  }

  /** `checkUrlBlockStatus` for one tab. */
  function Checked(s: EngineState, tab: Tab, today: string, weekday: int, now: int): EngineState
    requires Consistent(s) && 0 <= weekday < DAYS_PER_WEEK
  {
    if !Configured(s) then s
    else Enforced(RolledOver(s, today), tab, weekday, now)
  }

  /** A check keeps the state consistent, does nothing when nothing is configured, starts a
      tick timer only when no handle is held, and then tracks budgets with time left. */
  lemma CheckedEffects(s: EngineState, tab: Tab, today: string, weekday: int, now: int)
    requires Consistent(s) && 0 <= weekday < DAYS_PER_WEEK
    ensures var r := Checked(s, tab, today, weekday, now);
            && Consistent(r)
            && (!Configured(s) ==> r == s)
            && (r.timer != s.timer ==>
                  && s.timer.Idle? && r.timer.Running?
                  && var rolled := RolledOver(s, today);
                     TracksScopes(r.timer.tracking, rolled.sites, rolled.global, tab, weekday))
            && r.debounced == s.debounced
  {
    if Configured(s) {
      var rolled := RolledOver(s, today);
      EnforcedEffects(rolled, tab, weekday, now);
      EvaluateTracking(rolled.sites, rolled.global, tab, weekday, now, Evaluate(rolled.sites, rolled.global, tab, weekday, now));
    }
  }

  // ----- updateTime -----

  /** The closure's budgets after `totalTime += 1`. */
  function Advance(t: Tracking): Tracking
  {
    Tracking(if t.site.Some? then Some(t.site.value.(totalTime := t.site.value.totalTime + 1)) else None,
             if t.global.Some? then Some(t.global.value.(totalTime := t.global.value.totalTime + 1)) else None,
             t.tab)
  }

  /** The key a tick adds a second to: the site's website, or the tab's host when no site
      budget (or one with an empty website) is tracked. */
  function TickStatKey(t: Tracking): Option<string>
  {
    if t.site.Some? && t.site.value.website != "" then Some(t.site.value.website) else t.tab.host
  }

  /** The limit redirects of one tick, site first; both can fire in the same tick. */
  function TickRedirects(a: Tracking, weekday: int): (redirects: seq<Redirect>)
    requires TrackingWellFormed(a) && 0 <= weekday < DAYS_PER_WEEK
    ensures |redirects| <= 2
    ensures redirects == [] <==>
              !(a.site.Some? && SiteSpent(a.site.value, weekday)) && !(a.global.Some? && GlobalSpent(a.global.value, weekday))
    ensures |redirects| == 2 ==> redirects[0].reason.SiteLimitReached? && redirects[1].reason.GlobalLimitReached?
    ensures forall r :: r in redirects ==> IsLimitRedirect(r) && (r.reason.GlobalLimitReached? ==> r.website == GLOBAL_BUDGET_KEY)
    ensures forall r :: r in redirects && r.reason.SiteLimitReached? ==> a.site.Some? && r.website == a.site.value.website
  {
    var host := HostText(a.tab.host);
    (if a.site.Some? && SiteSpent(a.site.value, weekday)
     then [Redirect(a.site.value.redirectUrl, a.site.value.website, SiteLimitReached(host))] else [])
    + (if a.global.Some? && GlobalSpent(a.global.value, weekday)
       then [Redirect(a.global.value.redirectUrl, GLOBAL_BUDGET_KEY, GlobalLimitReached(host))] else [])
  }

  /** Each tracked budget whose allowance is reached redirects the tab once, to its own
      redirect setting, under its own statistics key, with the tab's host in the reason;
      nothing else is redirected. */
  lemma TickRedirectsProperties(a: Tracking, weekday: int, redirects: seq<Redirect>)
    requires TrackingWellFormed(a) && 0 <= weekday < DAYS_PER_WEEK
    requires redirects == TickRedirects(a, weekday)
    ensures (a.site.Some? && SiteSpent(a.site.value, weekday)) <==>
              exists r :: r in redirects && r.reason.SiteLimitReached?
    ensures (a.global.Some? && GlobalSpent(a.global.value, weekday)) <==>
              exists r :: r in redirects && r.reason.GlobalLimitReached?
    ensures forall r :: r in redirects && r.reason.SiteLimitReached? ==>
              && a.site.Some?
              && r == Redirect(a.site.value.redirectUrl, a.site.value.website, SiteLimitReached(HostText(a.tab.host)))
    ensures forall r :: r in redirects && r.reason.GlobalLimitReached? ==>
              && a.global.Some?
              && r == Redirect(a.global.value.redirectUrl, GLOBAL_BUDGET_KEY, GlobalLimitReached(HostText(a.tab.host)))
  {
    if a.site.Some? && SiteSpent(a.site.value, weekday) {
      assert redirects[0].reason.SiteLimitReached?;
    }
    if a.global.Some? && GlobalSpent(a.global.value, weekday) {
      assert redirects[|redirects| - 1].reason.GlobalLimitReached?;
    }
  }

  /** `storeData`: writes a total into the stored budget of that website, when there is one. */
  function StoredSite(s: EngineState, website: string, totalTime: int): EngineState
  {
    if website in s.sites then s.(sites := s.sites[website := s.sites[website].(totalTime := totalTime)]) else s
  }

  /** Only the total of that website's budget changes, and only when it is stored. */
  lemma StoredSiteEffects(s: EngineState, website: string, totalTime: int)
    ensures var r := StoredSite(s, website, totalTime);
            && r.sites.Keys == s.sites.Keys
            && (website in s.sites ==> r.sites[website] == s.sites[website].(totalTime := totalTime))
            && (forall host :: host in s.sites && host != website ==> r.sites[host] == s.sites[host])
            && r == s.(sites := r.sites)
  {
  }

  /** `storeGlobalData`. */
  function StoredGlobal(s: EngineState, totalTime: int): EngineState
  {
    s.(global := s.global.(totalTime := totalTime))
  }

  /** The tick's second of restricted time, under its key when it has one. */
  function Counted(s: EngineState, key: Option<string>): (r: EngineState)
  {
    if key.Some? then s.(daily := s.daily.(restrictedTimePerDay := Bump(s.daily.restrictedTimePerDay, key.value)))
    else s
  }

  /** The site half of a tick, given the advanced site budget: the badge shows its
      remaining seconds, its total is stored, and a reached allowance clears the interval
      and redirects under the site's website. */
  function SiteTicked(s: EngineState, site: Site, tabId: int, host: string, weekday: int): EngineState
    requires WellFormedSite(site) && 0 <= weekday < DAYS_PER_WEEK
  {
    var shown := s.(badge := Remaining(site.timeAllowed[weekday] - site.totalTime));
    var stored := StoredSite(shown, site.website, site.totalTime);
    if SiteSpent(site, weekday)
    then Redirected(stored.(timer := ClearedNotNulled), tabId, site.redirectUrl, Some(site.website), Some(SiteLimitReached(host)))
    else stored
  }

  /** The global half of a tick, given the advanced global budget; the badge shows the
      global remaining seconds only when no site budget is tracked. */
  function GlobalTicked(s: EngineState, global: Global, tabId: int, host: string, weekday: int, showBadge: bool): EngineState
    requires WellFormedGlobal(global) && 0 <= weekday < DAYS_PER_WEEK
  {
    var shown := if showBadge then s.(badge := Remaining(global.timeAllowed[weekday] - global.totalTime)) else s;
    var stored := StoredGlobal(shown, global.totalTime);
    if GlobalSpent(global, weekday)
    then Redirected(stored.(timer := ClearedNotNulled), tabId, global.redirectUrl, Some(GLOBAL_BUDGET_KEY),
                    Some(GlobalLimitReached(host)))
    else stored
  }

  /** The budget steps of one firing of the 1-second interval: the restricted second, the
      site half, then the global half. */
  function TickedBudgets(s: EngineState, weekday: int): EngineState
    requires s.timer.Running? && TrackingWellFormed(s.timer.tracking) && 0 <= weekday < DAYS_PER_WEEK
  {
    var t := s.timer.tracking;
    BudgetsTicked(Counted(s, TickStatKey(t)), t, weekday)
  }

  /** The site half, then the global half, of a tick of `t`. */
  function BudgetsTicked(s: EngineState, t: Tracking, weekday: int): EngineState
    requires TrackingWellFormed(t) && 0 <= weekday < DAYS_PER_WEEK
  {
    var a := Advance(t);
    var host := HostText(t.tab.host);
    var afterSite := if a.site.Some? then SiteTicked(s, a.site.value, t.tab.id, host, weekday) else s;
    if a.global.Some? then GlobalTicked(afterSite, a.global.value, t.tab.id, host, weekday, a.site.None?)
    else afterSite
  }

  /** One firing of the 1-second interval: its budget steps, and the closure's advanced
      copies while the interval still runs. */
  function Ticked(s: EngineState, weekday: int): (r: EngineState)
    requires s.timer.Running? && TrackingWellFormed(s.timer.tracking) && 0 <= weekday < DAYS_PER_WEEK
  {
    var stepped := TickedBudgets(s, weekday);
    stepped.(timer := if stepped.timer.Running? then Running(Advance(s.timer.tracking)) else stepped.timer)
  }

  /** The bookkeeping of one tick before any redirect: a second of restricted time under
      the tick's key, and the advanced totals written to the store. */
  function Charged(s: EngineState, t: Tracking): (r: EngineState)
  {
    var a := Advance(t);
    var counted := Counted(s, TickStatKey(t));
    var siteStored := if a.site.Some? then StoredSite(counted, a.site.value.website, a.site.value.totalTime) else counted;
    if a.global.Some? then StoredGlobal(siteStored, a.global.value.totalTime) else siteStored
  }

  /** The bookkeeping of a tick: one more second under the tick's key, the advanced site
      total stored under its website when that is still a stored budget, the advanced global
      total stored, and nothing else. */
  lemma ChargedEffects(s: EngineState, t: Tracking)
    ensures var r := Charged(s, t);
            && r.sites.Keys == s.sites.Keys
            && (t.site.Some? && t.site.value.website in s.sites ==>
                  r.sites[t.site.value.website] == s.sites[t.site.value.website].(totalTime := t.site.value.totalTime + 1))
            && (forall host :: host in s.sites && (t.site.None? || host != t.site.value.website) ==> r.sites[host] == s.sites[host])
            && r.global == (if t.global.Some? then s.global.(totalTime := t.global.value.totalTime + 1) else s.global)
            && (forall k :: Get(r.daily.restrictedTimePerDay, k)
                              == Get(s.daily.restrictedTimePerDay, k) + (if TickStatKey(t) == Some(k) then 1 else 0))
            && r == s.(sites := r.sites, global := r.global,
                       daily := s.daily.(restrictedTimePerDay := r.daily.restrictedTimePerDay))
  {
    var key := TickStatKey(t);
    if key.Some? {
      var counts := s.daily.restrictedTimePerDay;
      assert forall k :: Get(Bump(counts, key.value), k) == Get(counts, k) + (if key == Some(k) then 1 else 0);
    }
  }

  /** Redirects touch only the blocked counts and the navigations, so they commute with
      storing the global total. */
  lemma {:induction false} RedirectedAllKeepsStore(s: EngineState, tabId: int, redirects: seq<Redirect>, totalTime: int)
    decreases |redirects|
    ensures RedirectedAll(StoredGlobal(s, totalTime), tabId, redirects) == StoredGlobal(RedirectedAll(s, tabId, redirects), totalTime)
  {
    if redirects != [] {
      var first := RedirectedBy(s, tabId, redirects[0]);
      assert RedirectedBy(StoredGlobal(s, totalTime), tabId, redirects[0]) == StoredGlobal(first, totalTime);
      RedirectedAllKeepsStore(first, tabId, redirects[1..], totalTime);
    }
  }

  /** The site half of a tick stores the total and then performs its redirect, if any. */
  lemma SiteTickedIsStoreThenRedirect(s: EngineState, site: Site, tabId: int, host: string, weekday: int)
    requires WellFormedSite(site) && 0 <= weekday < DAYS_PER_WEEK
    ensures var redirects := if SiteSpent(site, weekday) then [Redirect(site.redirectUrl, site.website, SiteLimitReached(host))]
                             else [];
            SiteTicked(s, site, tabId, host, weekday)
              == RedirectedAll(StoredSite(s, site.website, site.totalTime), tabId, redirects)
                   .(timer := if redirects == [] then s.timer else ClearedNotNulled,
                     badge := Remaining(site.timeAllowed[weekday] - site.totalTime))
  {
    var r := Redirect(site.redirectUrl, site.website, SiteLimitReached(host));
    var stored := StoredSite(s, site.website, site.totalTime);
    var badge := Remaining(site.timeAllowed[weekday] - site.totalTime);
    assert StoredSite(s.(badge := badge), site.website, site.totalTime) == stored.(badge := badge);
    RedirectedAllOne(stored, tabId, r);
    RedirectedAllOne(stored.(timer := ClearedNotNulled, badge := badge), tabId, r);
  }

  /** The global half of a tick, after a step that set the timer to `timer` and the badge
      to `badge`. */
  lemma GlobalTickedIsStoreThenRedirect(s: EngineState, timer: Timer, badge: Badge, global: Global, tabId: int,
                                        host: string, weekday: int, showBadge: bool)
    requires WellFormedGlobal(global) && 0 <= weekday < DAYS_PER_WEEK
    ensures var redirects := if GlobalSpent(global, weekday)
                             then [Redirect(global.redirectUrl, GLOBAL_BUDGET_KEY, GlobalLimitReached(host))] else [];
            GlobalTicked(s.(timer := timer, badge := badge), global, tabId, host, weekday, showBadge)
              == RedirectedAll(StoredGlobal(s, global.totalTime), tabId, redirects)
                   .(timer := if redirects == [] then timer else ClearedNotNulled,
                     badge := if showBadge then Remaining(global.timeAllowed[weekday] - global.totalTime) else badge)
  {
    var r := Redirect(global.redirectUrl, GLOBAL_BUDGET_KEY, GlobalLimitReached(host));
    var stored := StoredGlobal(s, global.totalTime);
    var shown := if showBadge then Remaining(global.timeAllowed[weekday] - global.totalTime) else badge;
    RedirectedAllOne(stored, tabId, r);
    RedirectedAllOne(stored.(timer := ClearedNotNulled, badge := shown), tabId, r);
  }

  /** A tick as bookkeeping followed by its limit redirects, site first, with the interval
      cleared exactly when there is a redirect and the badge showing the tracked budget. */
  function ChargeThenRedirects(s: EngineState, weekday: int): EngineState
    requires s.timer.Running? && TrackingWellFormed(s.timer.tracking) && 0 <= weekday < DAYS_PER_WEEK
  {
    var t := s.timer.tracking;
    var redirects := TickRedirects(Advance(t), weekday);
    RedirectedAll(Charged(s, t), t.tab.id, redirects)
      .(timer := if redirects == [] then Running(Advance(t)) else ClearedNotNulled,
        badge := Remaining(RemainingSeconds(Advance(t), weekday)))
  }

  lemma TickWithSiteBudgetOnly(s: EngineState, weekday: int)
    requires s.timer.Running? && TrackingWellFormed(s.timer.tracking) && 0 <= weekday < DAYS_PER_WEEK
    requires s.timer.tracking.site.Some? && s.timer.tracking.global.None?
    ensures Ticked(s, weekday) == ChargeThenRedirects(s, weekday)
  {
    var t := s.timer.tracking;
    var a := Advance(t);
    var site := a.site.value;
    var host := HostText(t.tab.host);
    var counted := Counted(s, TickStatKey(t));
    assert Charged(s, t) == StoredSite(counted, site.website, site.totalTime);
    assert TickRedirects(a, weekday)
             == if SiteSpent(site, weekday) then [Redirect(site.redirectUrl, site.website, SiteLimitReached(host))] else [];
    assert RemainingSeconds(a, weekday) == site.timeAllowed[weekday] - site.totalTime;
    SiteTickedIsStoreThenRedirect(counted, site, t.tab.id, host, weekday);
  }

  lemma TickWithBothBudgets(s: EngineState, weekday: int)
    requires s.timer.Running? && TrackingWellFormed(s.timer.tracking) && 0 <= weekday < DAYS_PER_WEEK
    requires s.timer.tracking.site.Some? && s.timer.tracking.global.Some?
    ensures Ticked(s, weekday) == ChargeThenRedirects(s, weekday)
  {
    var t := s.timer.tracking;
    var a := Advance(t);
    var site := a.site.value;
    var global := a.global.value;
    var host := HostText(t.tab.host);
    var tabId := t.tab.id;
    var counted := Counted(s, TickStatKey(t));
    var siteStored := StoredSite(counted, site.website, site.totalTime);
    var charged := Charged(s, t);
    assert charged == StoredGlobal(siteStored, global.totalTime);
    var siteRedirects := if SiteSpent(site, weekday) then [Redirect(site.redirectUrl, site.website, SiteLimitReached(host))]
                         else [];
    var globalRedirects := if GlobalSpent(global, weekday)
                           then [Redirect(global.redirectUrl, GLOBAL_BUDGET_KEY, GlobalLimitReached(host))] else [];
    assert TickRedirects(a, weekday) == siteRedirects + globalRedirects;
    assert RemainingSeconds(a, weekday) == site.timeAllowed[weekday] - site.totalTime;
    var cleared := if siteRedirects == [] then s.timer else ClearedNotNulled;
    var siteDone := RedirectedAll(siteStored, tabId, siteRedirects);
    var afterSite := SiteTicked(counted, site, tabId, host, weekday);
    SiteTickedIsStoreThenRedirect(counted, site, tabId, host, weekday);
    assert afterSite == siteDone.(timer := cleared, badge := afterSite.badge);
    var badge := afterSite.badge;
    GlobalTickedIsStoreThenRedirect(siteDone, cleared, badge, global, tabId, host, weekday, false);
    RedirectedAllKeepsStore(siteStored, tabId, siteRedirects, global.totalTime);
    assert RedirectedAll(charged, tabId, siteRedirects) == StoredGlobal(siteDone, global.totalTime);
    RedirectedAllAppend(charged, tabId, siteRedirects, globalRedirects);
    var both := RedirectedAll(charged, tabId, siteRedirects + globalRedirects);
    var afterGlobal := GlobalTicked(afterSite, global, tabId, host, weekday, false);
    assert afterGlobal == both.(timer := if globalRedirects == [] then cleared else ClearedNotNulled, badge := badge);
    assert TickedBudgets(s, weekday) == afterGlobal;
    assert badge == Remaining(RemainingSeconds(a, weekday));
    var timer := if siteRedirects + globalRedirects == [] then Running(a) else ClearedNotNulled;
    assert Ticked(s, weekday) == both.(timer := timer, badge := badge);
  }

  lemma TickWithGlobalBudgetOnly(s: EngineState, weekday: int)
    requires s.timer.Running? && TrackingWellFormed(s.timer.tracking) && 0 <= weekday < DAYS_PER_WEEK
    requires s.timer.tracking.site.None?
    ensures Ticked(s, weekday) == ChargeThenRedirects(s, weekday)
  {
    var t := s.timer.tracking;
    var a := Advance(t);
    var g := a.global.value;
    var host := HostText(t.tab.host);
    var counted := Counted(s, TickStatKey(t));
    assert counted.timer == s.timer;
    assert counted.(timer := counted.timer, badge := counted.badge) == counted;
    assert Charged(s, t) == StoredGlobal(counted, g.totalTime);
    assert TickRedirects(a, weekday)
             == if GlobalSpent(g, weekday) then [Redirect(g.redirectUrl, GLOBAL_BUDGET_KEY, GlobalLimitReached(host))] else [];
    assert RemainingSeconds(a, weekday) == g.timeAllowed[weekday] - g.totalTime;
    GlobalTickedIsStoreThenRedirect(counted, counted.timer, counted.badge, g, t.tab.id, host, weekday, true);
  }

  /** A tick is its bookkeeping followed by its limit redirects. */
  lemma TickIsChargeThenRedirects(s: EngineState, weekday: int)
    requires s.timer.Running? && TrackingWellFormed(s.timer.tracking) && 0 <= weekday < DAYS_PER_WEEK
    ensures Ticked(s, weekday) == ChargeThenRedirects(s, weekday)
  {
    if s.timer.tracking.site.Some? && s.timer.tracking.global.None? {
      TickWithSiteBudgetOnly(s, weekday);
    } else if s.timer.tracking.site.Some? {
      TickWithBothBudgets(s, weekday);
    } else {
      TickWithGlobalBudgetOnly(s, weekday);
    }
  }

  /** What one tick does: bookkeeping, the limit redirects and the badge, and nothing else. */
  lemma TickedEffects(s: EngineState, weekday: int)
    requires Consistent(s) && s.timer.Running? && 0 <= weekday < DAYS_PER_WEEK
    ensures var r := Ticked(s, weekday);
            var t := s.timer.tracking;
            var redirects := TickRedirects(Advance(t), weekday);
            var charged := Charged(s, t);
            // a reached allowance clears the interval (the handle stays set) and redirects
            && r.timer == (if redirects == [] then Running(Advance(t)) else ClearedNotNulled)
            && r.navigations == s.navigations + NavigationsTo(t.tab.id, redirects)
            && (forall k :: Get(r.daily.blockedPerDay, k) == Get(s.daily.blockedPerDay, k) + CountKey(redirects, k))
            && r.badge == Remaining(RemainingSeconds(Advance(t), weekday))
            // the rest is the bookkeeping of Charged
            && r.sites == charged.sites && r.global == charged.global
            && r.daily.restrictedTimePerDay == charged.daily.restrictedTimePerDay
            // and nothing else changes
            && r.siteOrder == s.siteOrder && r.debounced == s.debounced && r.daily.day == s.daily.day
            && r.historicalBlockedPerDay == s.historicalBlockedPerDay
            && r.historicalRestrictedTimePerDay == s.historicalRestrictedTimePerDay
            && Consistent(r)
  {
    TickIsChargeThenRedirects(s, weekday);
    var t := s.timer.tracking;
    var charged := Charged(s, t);
    var redirects := TickRedirects(Advance(t), weekday);
    ChargedEffects(s, t);
    RedirectedAllNavigations(charged, t.tab.id, redirects);
    forall k ensures Get(Ticked(s, weekday).daily.blockedPerDay, k) == Get(s.daily.blockedPerDay, k) + CountKey(redirects, k) {
      RedirectedAllCounts(charged, t.tab.id, redirects, k);
      assert Get(charged.daily.blockedPerDay, k) == Get(s.daily.blockedPerDay, k);
    }
  }

  lemma TickKeepsConsistent(s: EngineState, weekday: int)
    requires Consistent(s) && s.timer.Running? && 0 <= weekday < DAYS_PER_WEEK
    ensures Consistent(Ticked(s, weekday))
  {
    TickedEffects(s, weekday);
  }

  /** The closure's copies agree with the stored totals of the budgets they came from. */
  predicate CopiesInStep(s: EngineState)
  {
    s.timer.Running? ==>
      var t := s.timer.tracking;
      && (t.site.Some? ==> t.site.value.website in s.sites && s.sites[t.site.value.website].totalTime == t.site.value.totalTime)
      && (t.global.Some? ==> s.global.totalTime == t.global.value.totalTime)
  }

  /** When nothing else writes the store, a tick that keeps the timer running keeps the
      closure's copies and the stored totals in step. */
  lemma TickKeepsCopiesInStep(s: EngineState, weekday: int)
    requires Consistent(s) && s.timer.Running? && 0 <= weekday < DAYS_PER_WEEK
    requires CopiesInStep(s)
    ensures CopiesInStep(Ticked(s, weekday))
  {
    TickedEffects(s, weekday);
  }
}
