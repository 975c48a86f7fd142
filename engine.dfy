/** The background script's module-level state and its handlers, step by step. */
module Background {
  import opened Wrappers
  import opened Budgets
  import opened Counters
  import opened Calendar
  import opened Schedule
  import opened Redirection
  import opened Policy
  import opened Transitions

  /** The quota enforcement engine: the stored budgets and statistics, the tick-timer and
      debounce handles, the badge, and the navigations it has issued. */
  class Engine {
    var sites: map<string, Site>
    var siteOrder: seq<string>
    var global: Global
    var daily: Daily
    var historicalBlockedPerDay: map<string, map<string, int>>
    var historicalRestrictedTimePerDay: map<string, map<string, int>>
    var activeBlockTimer: Timer
    var debounced: Option<Tab>
    var badge: Badge
    var navigations: seq<Navigation>

    ghost function State(): EngineState
      reads this
    {
      EngineState(sites, siteOrder, global, daily, historicalBlockedPerDay, historicalRestrictedTimePerDay,
                  activeBlockTimer, debounced, badge, navigations)
    }

    ghost predicate Valid()
      reads this
    {
      Consistent(State())
    }

    /** The engine over installed storage: no timer, nothing pending, nothing navigated. */
    constructor (sites: map<string, Site>, siteOrder: seq<string>, global: Global, daily: Daily,
                 historicalBlockedPerDay: map<string, map<string, int>>,
                 historicalRestrictedTimePerDay: map<string, map<string, int>>)
      requires Consistent(EngineState(sites, siteOrder, global, daily, historicalBlockedPerDay,
                                      historicalRestrictedTimePerDay, Idle, None, Blank, []))
      ensures Valid()
      ensures State() == EngineState(sites, siteOrder, global, daily, historicalBlockedPerDay,
                                     historicalRestrictedTimePerDay, Idle, None, Blank, [])
    {
      this.sites := sites;
      this.siteOrder := siteOrder;
      this.global := global;
      this.daily := daily;
      this.historicalBlockedPerDay := historicalBlockedPerDay;
      this.historicalRestrictedTimePerDay := historicalRestrictedTimePerDay;
      activeBlockTimer := Idle;
      debounced := None;
      badge := Blank;
      navigations := [];
    }

    /** `stopCurrentBlocking`: the handle is always null afterwards. */
    method StopCurrentBlocking()
      requires Valid()
      modifies this`activeBlockTimer, this`badge
      ensures Valid() && State() == Stopped(old(State()))
    {
      if activeBlockTimer != Idle {
        activeBlockTimer := Idle;
        badge := Blank;
      }
    }

    /** `debounceCheckUrlBlockStatus`: replaces any pending check by one for `tab`. */
    method DebounceCheckUrlBlockStatus(tab: Tab)
      requires Valid()
      modifies this`debounced
      ensures Valid() && State() == old(State()).(debounced := Some(tab))
    {
      debounced := Some(tab);
    }

    /** The 200 ms debounce timeout fires: the pending tab is checked. The clock reading is
        given as `getDay()`, `getHours()` and `getMinutes()`, and one reading serves the
        whole check. */
    method FireDebounce(today: string, jsDay: int, hours: int, minutes: int)
      requires Valid() && debounced.Some? && 0 <= jsDay < 7 && 0 <= hours < 24 && 0 <= minutes < 60
      modifies this
      ensures Valid()
      ensures State() == Checked(old(State()).(debounced := None), old(debounced.value), today,
                                 Weekday(jsDay), MinuteOfDay(hours, minutes))
    {
      var tab := debounced.value;
      debounced := None;
      CheckUrlBlockStatus(tab, today, Weekday(jsDay), MinuteOfDay(hours, minutes));
    }

    /** `redirectToUrl`: counts the block under its key and navigates the tab. */
    method RedirectToUrl(url: string, tabId: int, website: Option<string>, redirectReason: Option<Reason>)
      modifies this`daily, this`navigations
      ensures State() == Redirected(old(State()), tabId, url, website, redirectReason)
    {
      daily := daily.(blockedPerDay := Bump(daily.blockedPerDay, StatKey(website)));
      navigations := navigations + [Navigation(tabId, RedirectTarget(url, redirectReason))];
    }

    /** `checkScheduledBlock`: at most one redirect, for the first block that applies today
        and covers `now`. */
    method CheckScheduledBlock(ranges: seq<Range>, redirectUrl: string, tab: Tab, globalBudget: bool,
                               weekday: int, now: int)
      requires tab.host.Some?
      modifies this`daily, this`navigations
      ensures State() == RedirectedAll(old(State()), tab.id,
                                       ScheduledRedirects(ranges, redirectUrl, tab.host.value, globalBudget, weekday, now))
    {
      var filtered := ActiveToday(ranges, weekday);
      var first := FirstWithin(filtered, now);
      if first.Some? {
        var currentUrl := tab.host.value;
        var r := Redirect(redirectUrl, currentUrl, ScheduledBlock(first.value, globalBudget, currentUrl));
        RedirectedAllOne(old(State()), tab.id, r);
        RedirectToUrl(redirectUrl, tab.id, Some(currentUrl), Some(ScheduledBlock(first.value, globalBudget, currentUrl)));
      }
    }

    /** `updateHistoricalData`: files the statistics under their day and starts `today`'s. */
    method UpdateHistoricalData(today: string)
      modifies this`daily, this`historicalBlockedPerDay, this`historicalRestrictedTimePerDay
      ensures State() == Archived(old(State()), today)
    {
      historicalBlockedPerDay := historicalBlockedPerDay[daily.day := daily.blockedPerDay];
      historicalRestrictedTimePerDay := historicalRestrictedTimePerDay[daily.day := daily.restrictedTimePerDay];
      daily := Daily(map[], map[], today);
    }

    /** `resetDailyTimers`: zeroes every site budget in key order, then archives. */
    method ResetDailyTimers(today: string)
      requires Valid()
      modifies this`sites, this`daily, this`historicalBlockedPerDay, this`historicalRestrictedTimePerDay
      ensures State() == Archived(old(State()).(sites := ResetSites(old(sites), today)), today)
    {
      var blockedWebsites := sites;
      for i := 0 to |siteOrder|
        invariant blockedWebsites.Keys == sites.Keys
        invariant forall host :: host in sites ==>
                    blockedWebsites[host] == if host in siteOrder[..i] then ResetSite(sites[host], today) else sites[host]
      {
        var website := siteOrder[i];
        assert siteOrder[..i + 1] == siteOrder[..i] + [website];
        blockedWebsites := blockedWebsites[website := ResetSite(blockedWebsites[website], today)];
      }
      assert siteOrder[..|siteOrder|] == siteOrder;
      assert blockedWebsites == ResetSites(sites, today);
      sites := blockedWebsites;
      UpdateHistoricalData(today);
    }

    /** `storeData`: a missing website leaves the store as it was. */
    method StoreData(websiteName: string, totalTime: int)
      modifies this`sites
      ensures State() == StoredSite(old(State()), websiteName, totalTime)
    {
      if websiteName in sites {
        sites := sites[websiteName := sites[websiteName].(totalTime := totalTime)];
      }
    }

    /** `storeGlobalData`. */
    method StoreGlobalData(totalTime: int)
      modifies this`global
      ensures State() == StoredGlobal(old(State()), totalTime)
    {
      global := global.(totalTime := totalTime);
    }

    /** `checkUrlBlockStatus`: rollover, then the site scope, then the global scope. */
    method CheckUrlBlockStatus(tab: Tab, today: string, weekday: int, now: int)
      requires Valid() && 0 <= weekday < DAYS_PER_WEEK
      modifies this`sites, this`global, this`daily, this`historicalBlockedPerDay, this`historicalRestrictedTimePerDay,
               this`activeBlockTimer, this`badge, this`navigations
      ensures Valid() && State() == Checked(old(State()), tab, today, weekday, now)
    {
      ghost var start := State();
      if |siteOrder| > 0 || |global.websites| > 0 {
        if |siteOrder| > 0 && sites[siteOrder[0]].lastAccessedDate != today {
          ResetDailyTimers(today);
        }
        if global.lastAccessedDate != today {
          global := global.(lastAccessedDate := today, totalTime := 0);
          UpdateHistoricalData(today);
        }
        ghost var rolled := RolledOver(start, today);
        assert State() == rolled;
        EnforceBudgets(tab, weekday, now);
        assert State() == Enforced(rolled, tab, weekday, now);
      }
      CheckedEffects(start, tab, today, weekday, now);
    }

    /** The part of `checkUrlBlockStatus` after the rollover. */
    method EnforceBudgets(tab: Tab, weekday: int, now: int)
      requires SitesWellFormed(sites) && WellFormedGlobal(global) && 0 <= weekday < DAYS_PER_WEEK
      modifies this`daily, this`navigations, this`activeBlockTimer, this`badge
      ensures State() == Enforced(old(State()), tab, weekday, now)
    {
      if tab.host.None? {
        return;
      }
      var currentTabUrl := tab.host.value;
      var isUrlInGlobalList := currentTabUrl in global.websites;
      var isUrlInBlockedList := currentTabUrl in sites;
      if !isUrlInBlockedList && !isUrlInGlobalList {
        return;
      }
      if isUrlInBlockedList {
        EnforceSiteBudget(tab, weekday, now);
      } else {
        EnforceGlobalBudget(tab, weekday, now);
      }
    }

    /** The site scope of `checkUrlBlockStatus`, for a tab whose host has a site budget; the
        global scope follows while the site budget has time left. */
    method EnforceSiteBudget(tab: Tab, weekday: int, now: int)
      requires SitesWellFormed(sites) && WellFormedGlobal(global) && 0 <= weekday < DAYS_PER_WEEK
      requires tab.host.Some? && tab.host.value in sites
      modifies this`daily, this`navigations, this`activeBlockTimer, this`badge
      ensures State() == Enforced(old(State()), tab, weekday, now)
    {
      ghost var start := State();
      ghost var v := Evaluate(sites, global, tab, weekday, now);
      var currentTabUrl := tab.host.value;
      var isUrlInGlobalList := currentTabUrl in global.websites;
      var globalTimeBudget := global;
      var currentBlockedWebsite := sites[currentTabUrl];
      if tab.path != "" && tab.path in currentBlockedWebsite.allowedPaths {
        return;
      }
      if currentBlockedWebsite.timeAllowed[weekday] == UNRESTRICTED {
        return;
      }
      if !currentBlockedWebsite.blockIncognito && tab.incognito {
        return;
      }
      var onSite := ScheduledRedirects(currentBlockedWebsite.scheduledBlockRanges, currentBlockedWebsite.redirectUrl,
                                       currentTabUrl, false, weekday, now);
      if |currentBlockedWebsite.scheduledBlockRanges| > 0 {
        CheckScheduledBlock(currentBlockedWebsite.scheduledBlockRanges, currentBlockedWebsite.redirectUrl, tab, false,
                            weekday, now);
      }
      assert State() == RedirectedAll(start, tab.id, onSite);
      if currentBlockedWebsite.totalTime >= currentBlockedWebsite.timeAllowed[weekday] {
        ghost var limit := SiteLimitRedirect(currentBlockedWebsite, currentTabUrl);
        ghost var mid := State();
        RedirectToUrl(currentBlockedWebsite.redirectUrl, tab.id, Some(currentTabUrl), Some(SiteLimitReached(currentTabUrl)));
        RedirectedAllOne(mid, tab.id, limit);
        RedirectedAllAppend(start, tab.id, onSite, [limit]);
        assert v == Verdict(onSite + [limit], None);
        return;
      }
      if isUrlInGlobalList && globalTimeBudget.timeAllowed[weekday] != UNRESTRICTED {
        var onGlobal := ScheduledRedirects(globalTimeBudget.scheduledBlockRanges, globalTimeBudget.redirectUrl,
                                           currentTabUrl, true, weekday, now);
        ghost var mid := State();
        if |globalTimeBudget.scheduledBlockRanges| > 0 {
          CheckScheduledBlock(globalTimeBudget.scheduledBlockRanges, globalTimeBudget.redirectUrl, tab, true,
                              weekday, now);
        }
        assert State() == RedirectedAll(mid, tab.id, onGlobal);
        RedirectedAllAppend(start, tab.id, onSite, onGlobal);
        if globalTimeBudget.totalTime >= globalTimeBudget.timeAllowed[weekday] {
          ghost var limit := GlobalLimitRedirect(globalTimeBudget, currentTabUrl);
          ghost var last := State();
          RedirectToUrl(globalTimeBudget.redirectUrl, tab.id, Some(GLOBAL_BUDGET_KEY),
                        Some(GlobalLimitReached(currentTabUrl)));
          RedirectedAllOne(last, tab.id, limit);
          RedirectedAllAppend(start, tab.id, onSite + onGlobal, [limit]);
          assert v == Verdict(onSite + onGlobal + [limit], None);
          return;
        }
        assert v
            == Verdict(onSite + onGlobal, Some(Tracking(Some(currentBlockedWebsite), Some(globalTimeBudget), tab)));
        StartTracking(Tracking(Some(currentBlockedWebsite), Some(globalTimeBudget), tab), weekday);
      } else {
        assert v
            == Verdict(onSite, Some(Tracking(Some(currentBlockedWebsite), None, tab)));
        StartTracking(Tracking(Some(currentBlockedWebsite), None, tab), weekday);
      }
    }

    /** The global scope of `checkUrlBlockStatus`, for a tab whose host has no site budget. */
    method EnforceGlobalBudget(tab: Tab, weekday: int, now: int)
      requires SitesWellFormed(sites) && WellFormedGlobal(global) && 0 <= weekday < DAYS_PER_WEEK
      requires tab.host.Some? && tab.host.value !in sites && tab.host.value in global.websites
      modifies this`daily, this`navigations, this`activeBlockTimer, this`badge
      ensures State() == Enforced(old(State()), tab, weekday, now)
    {
      ghost var start := State();
      ghost var v := Evaluate(sites, global, tab, weekday, now);
      var currentTabUrl := tab.host.value;
      var globalTimeBudget := global;
      if globalTimeBudget.timeAllowed[weekday] == UNRESTRICTED {
        return;
      }
      var onGlobal := ScheduledRedirects(globalTimeBudget.scheduledBlockRanges, globalTimeBudget.redirectUrl,
                                         currentTabUrl, true, weekday, now);
      if |globalTimeBudget.scheduledBlockRanges| > 0 {
        CheckScheduledBlock(globalTimeBudget.scheduledBlockRanges, globalTimeBudget.redirectUrl, tab, true,
                            weekday, now);
      }
      assert State() == RedirectedAll(start, tab.id, onGlobal);
      if globalTimeBudget.totalTime >= globalTimeBudget.timeAllowed[weekday] {
        ghost var limit := GlobalLimitRedirect(globalTimeBudget, currentTabUrl);
        ghost var mid := State();
        RedirectToUrl(globalTimeBudget.redirectUrl, tab.id, Some(GLOBAL_BUDGET_KEY),
                      Some(GlobalLimitReached(currentTabUrl)));
        RedirectedAllOne(mid, tab.id, limit);
        RedirectedAllAppend(start, tab.id, onGlobal, [limit]);
        assert v == Verdict(onGlobal + [limit], None);
        return;
      }
      assert v
          == Verdict(onGlobal, Some(Tracking(None, Some(globalTimeBudget), tab)));
      StartTracking(Tracking(None, Some(globalTimeBudget), tab), weekday);
    }

    /** Starts the 1-second interval for `tracking` unless a handle is held, then shows the
        remaining seconds of the tracked budget (of the site budget when there is one). */
    method StartTracking(tracking: Tracking, weekday: int)
      requires TrackingWellFormed(tracking) && 0 <= weekday < DAYS_PER_WEEK
      modifies this`activeBlockTimer, this`badge
      ensures State() == Tracked(old(State()), tracking, weekday)
    {
      if activeBlockTimer == Idle {
        activeBlockTimer := Running(tracking);
      }
      badge := Remaining(RemainingSeconds(tracking, weekday));
    }

    /** The site branch of `updateTime`, given the advanced site budget: badge, store, and
        the limit check. */
    method TickSiteBudget(site: Site, tabId: int, host: string, weekday: int)
      requires WellFormedSite(site) && 0 <= weekday < DAYS_PER_WEEK
      modifies this`sites, this`daily, this`activeBlockTimer, this`badge, this`navigations
      ensures State() == SiteTicked(old(State()), site, tabId, host, weekday)
    {
      badge := Remaining(site.timeAllowed[weekday] - site.totalTime);
      StoreData(site.website, site.totalTime);
      if site.totalTime >= site.timeAllowed[weekday] {
        activeBlockTimer := ClearedNotNulled;
        RedirectToUrl(site.redirectUrl, tabId, Some(site.website), Some(SiteLimitReached(host)));
      }
    }

    /** The global part of `updateTime`, given the advanced global budget; it shows the
        badge only when no site budget is tracked. */
    method TickGlobalBudget(global: Global, tabId: int, host: string, weekday: int, showBadge: bool)
      requires WellFormedGlobal(global) && 0 <= weekday < DAYS_PER_WEEK
      modifies this`global, this`daily, this`activeBlockTimer, this`badge, this`navigations
      ensures State() == GlobalTicked(old(State()), global, tabId, host, weekday, showBadge)
    {
      if showBadge {
        badge := Remaining(global.timeAllowed[weekday] - global.totalTime);
      }
      StoreGlobalData(global.totalTime);
      if global.totalTime >= global.timeAllowed[weekday] {
        activeBlockTimer := ClearedNotNulled;
        RedirectToUrl(global.redirectUrl, tabId, Some(GLOBAL_BUDGET_KEY), Some(GlobalLimitReached(host)));
      }
    }

    /** `updateTime`: one firing of the running 1-second interval, on the day `getDay()` reads. */
    method UpdateTime(jsDay: int)
      requires Valid() && activeBlockTimer.Running? && 0 <= jsDay < 7
      modifies this`sites, this`global, this`daily, this`activeBlockTimer, this`badge, this`navigations
      ensures Valid() && State() == Ticked(old(State()), Weekday(jsDay))
    {
      ghost var start := State();
      Tick(Weekday(jsDay));
      TickKeepsConsistent(start, Weekday(jsDay));
    }

    /** The body of `updateTime`: the restricted second, the budget halves, and the
        closure's advanced copies while the interval still runs. */
    method Tick(weekday: int)
      requires activeBlockTimer.Running? && TrackingWellFormed(activeBlockTimer.tracking) && 0 <= weekday < DAYS_PER_WEEK
      modifies this`sites, this`global, this`daily, this`activeBlockTimer, this`badge, this`navigations
      ensures State() == Ticked(old(State()), weekday)
    {
      ghost var start := State();
      var tracking := activeBlockTimer.tracking;
      CountRestrictedSecond(tracking);
      var advanced := TickBudgets(tracking, weekday);
      assert State() == TickedBudgets(start, weekday);
      if activeBlockTimer.Running? {
        activeBlockTimer := Running(advanced);
      }
    }

    /** A second of restricted time under the site's website, or else under the tab's host. */
    method CountRestrictedSecond(tracking: Tracking)
      modifies this`daily
      ensures State() == Counted(old(State()), TickStatKey(tracking))
    {
      var blockedWebsite := tracking.site;
      var currentUrl := tracking.tab.host;
      if blockedWebsite.Some? && blockedWebsite.value.website != "" {
        daily := daily.(restrictedTimePerDay := Bump(daily.restrictedTimePerDay, blockedWebsite.value.website));
      } else if currentUrl.Some? {
        daily := daily.(restrictedTimePerDay := Bump(daily.restrictedTimePerDay, currentUrl.value));
      }
    }

    /** Advances the tracked copies by a second and runs the site half, then the global
        half; returns the advanced copies. */
    method TickBudgets(tracking: Tracking, weekday: int) returns (advanced: Tracking)
      requires TrackingWellFormed(tracking) && 0 <= weekday < DAYS_PER_WEEK
      modifies this`sites, this`global, this`daily, this`activeBlockTimer, this`badge, this`navigations
      ensures advanced == Advance(tracking)
      ensures State() == BudgetsTicked(old(State()), tracking, weekday)
    {
      ghost var start := State();
      var blockedWebsite := tracking.site;
      var globalTimeBudget := tracking.global;
      var tab := tracking.tab;
      var host := HostText(tab.host);
      if blockedWebsite.Some? {
        var site := blockedWebsite.value.(totalTime := blockedWebsite.value.totalTime + 1);
        blockedWebsite := Some(site);
        TickSiteBudget(site, tab.id, host, weekday);
        if globalTimeBudget.Some? {
          ghost var afterSite := State();
          var g := globalTimeBudget.value.(totalTime := globalTimeBudget.value.totalTime + 1);
          globalTimeBudget := Some(g);
          TickGlobalBudget(g, tab.id, host, weekday, false);
          assert State() == GlobalTicked(afterSite, g, tab.id, host, weekday, false);
        }
      } else if globalTimeBudget.Some? {
        var g := globalTimeBudget.value.(totalTime := globalTimeBudget.value.totalTime + 1);
        globalTimeBudget := Some(g);
        TickGlobalBudget(g, tab.id, host, weekday, true);
      }
      advanced := Tracking(blockedWebsite, globalTimeBudget, tab);
    }
  }
}
