/** The decision `checkUrlBlockStatus` takes for one tab, once the day rollover is done:
    which redirects it issues, in order, and what a tick timer would track. */
module Policy {
  import opened Wrappers
  import opened Budgets
  import opened Schedule
  import opened Redirection

  /** What the 1-second interval's closure captures: the site budget and/or the global
      budget it charges, and the tab. */
  datatype Tracking = Tracking(site: Option<Site>, global: Option<Global>, tab: Tab)

  /** Redirects issued in order, and the tracking to start when no timer is running. */
  datatype Verdict = Verdict(redirects: seq<Redirect>, track: Option<Tracking>)

  predicate TrackingWellFormed(t: Tracking)
  {
    && (t.site.Some? || t.global.Some?)
    && (t.site.Some? ==> WellFormedSite(t.site.value))
    && (t.global.Some? ==> WellFormedGlobal(t.global.value))
  }

  /** The redirect of `checkScheduledBlock`, when a block covers `now`; its statistics key
      is the visited host for the global budget too. */
  function ScheduledRedirects(ranges: seq<Range>, url: string, host: string, onGlobalBudget: bool,
                              weekday: int, now: int): seq<Redirect>
  {
    match FirstScheduledBlock(ranges, weekday, now)
    case None => []
    case Some(range) => [Redirect(url, host, ScheduledBlock(range, onGlobalBudget, host))]
  }

  /** At most one redirect, issued exactly when some range blocks `now` today, naming the
      block that covers `now` and the visited host. */
  lemma ScheduledRedirectsProperties(ranges: seq<Range>, url: string, host: string, onGlobalBudget: bool,
                                     weekday: int, now: int, redirects: seq<Redirect>)
    requires redirects == ScheduledRedirects(ranges, url, host, onGlobalBudget, weekday, now)
    ensures |redirects| <= 1
    ensures redirects == [] <==> forall j :: 0 <= j < |ranges| ==> !Blocks(ranges[j], weekday, now)
    ensures forall r :: r in redirects ==>
              && r.url == url && r.website == host
              && r.reason.ScheduledBlock? && r.reason.onGlobalBudget == onGlobalBudget && r.reason.host == host
              && Blocks(r.reason.range, weekday, now) && r.reason.range in ranges
  {
    NoScheduledBlockIffNoMatch(ranges, weekday, now);
  }

  /** Some range of the list applies today and contains `now`. */
  predicate AnyBlocks(ranges: seq<Range>, weekday: int, now: int)
  {
    exists j :: 0 <= j < |ranges| && Blocks(ranges[j], weekday, now)
  }

  /** The path is allow-listed (an empty path never is). */
  predicate PathAllowed(site: Site, tab: Tab)
  {
    tab.path != "" && tab.path in site.allowedPaths
  }

  /** The early returns of the site scope: allowed path, unrestricted weekday, exempt incognito tab. */
  predicate SiteExempt(site: Site, tab: Tab, weekday: int)
    requires WellFormedSite(site) && 0 <= weekday < DAYS_PER_WEEK
  {
    PathAllowed(site, tab) || site.timeAllowed[weekday] == UNRESTRICTED || (!site.blockIncognito && tab.incognito)
  }

  predicate GlobalApplies(global: Global, host: string, weekday: int)
    requires WellFormedGlobal(global) && 0 <= weekday < DAYS_PER_WEEK
  {
    host in global.websites && global.timeAllowed[weekday] != UNRESTRICTED
  }

  predicate SiteSpent(site: Site, weekday: int)
    requires WellFormedSite(site) && 0 <= weekday < DAYS_PER_WEEK
  {
    site.totalTime >= site.timeAllowed[weekday]
  }

  predicate GlobalSpent(global: Global, weekday: int)
    requires WellFormedGlobal(global) && 0 <= weekday < DAYS_PER_WEEK
  {
    global.totalTime >= global.timeAllowed[weekday]
  }

  function SiteLimitRedirect(site: Site, host: string): Redirect
  {
    Redirect(site.redirectUrl, host, SiteLimitReached(host))
  }

  function GlobalLimitRedirect(global: Global, host: string): Redirect
  {
    Redirect(global.redirectUrl, GLOBAL_BUDGET_KEY, GlobalLimitReached(host))
  }

  predicate IsLimitRedirect(r: Redirect)
  {
    r.reason.SiteLimitReached? || r.reason.GlobalLimitReached?
  }

  predicate FromGlobalBudget(r: Redirect)
  {
    r.reason.GlobalLimitReached? || (r.reason.ScheduledBlock? && r.reason.onGlobalBudget)
  }

  /** Some budget is enforced for the tab: its site budget is not exempt, or it has no site
      budget and the global budget applies today. */
  predicate Enforceable(sites: map<string, Site>, global: Global, tab: Tab, weekday: int)
    requires SitesWellFormed(sites) && WellFormedGlobal(global) && 0 <= weekday < DAYS_PER_WEEK
  {
    && tab.host.Some?
    && (if tab.host.value in sites then !SiteExempt(sites[tab.host.value], tab, weekday)
        else GlobalApplies(global, tab.host.value, weekday))
  }

  /** The tab has a site budget, and it is not exempt: the site scope is enforced. */
  predicate SiteEnforced(sites: map<string, Site>, tab: Tab, weekday: int)
    requires SitesWellFormed(sites) && 0 <= weekday < DAYS_PER_WEEK
  {
    tab.host.Some? && tab.host.value in sites && !SiteExempt(sites[tab.host.value], tab, weekday)
  }

  predicate SiteScheduled(r: Redirect)
  {
    r.reason.ScheduledBlock? && !r.reason.onGlobalBudget
  }

  predicate GlobalScheduled(r: Redirect)
  {
    r.reason.ScheduledBlock? && r.reason.onGlobalBudget
  }

  /** The global budget is consulted for the tab: it applies, and a site budget of the tab
      is neither exempt nor spent. */
  predicate GlobalConsulted(sites: map<string, Site>, global: Global, tab: Tab, weekday: int)
    requires SitesWellFormed(sites) && WellFormedGlobal(global) && 0 <= weekday < DAYS_PER_WEEK
  {
    && tab.host.Some?
    && GlobalApplies(global, tab.host.value, weekday)
    && (tab.host.value in sites ==>
          !SiteExempt(sites[tab.host.value], tab, weekday) && !SiteSpent(sites[tab.host.value], weekday))
  }

  /** A tracking names the tab's own site budget iff it has one, the global budget iff that is
      consulted, and only budgets with time left. */
  predicate TracksScopes(t: Tracking, sites: map<string, Site>, global: Global, tab: Tab, weekday: int)
    requires SitesWellFormed(sites) && WellFormedGlobal(global) && 0 <= weekday < DAYS_PER_WEEK
  {
    && tab.host.Some? && t.tab == tab
    && (t.site.Some? <==> tab.host.value in sites)
    && (t.site.Some? ==> t.site.value == sites[tab.host.value] && !SiteSpent(t.site.value, weekday))
    && (t.global.Some? <==> GlobalConsulted(sites, global, tab, weekday))
    && (t.global.Some? ==> t.global.value == global && !GlobalSpent(global, weekday))
  }

  /** The policy of `checkUrlBlockStatus`: the site scope first, then the global scope. */
  function Evaluate(sites: map<string, Site>, global: Global, tab: Tab, weekday: int, now: int): Verdict
    requires SitesWellFormed(sites) && WellFormedGlobal(global) && 0 <= weekday < DAYS_PER_WEEK
  {
    if tab.host.None? then Verdict([], None)
    else
      var host := tab.host.value;
      if host in sites then
        var site := sites[host];
        if SiteExempt(site, tab, weekday) then Verdict([], None)
        else
          var onSite := ScheduledRedirects(site.scheduledBlockRanges, site.redirectUrl, host, false, weekday, now);
          if SiteSpent(site, weekday) then Verdict(onSite + [SiteLimitRedirect(site, host)], None)
          else if GlobalApplies(global, host, weekday) then
            var onGlobal := ScheduledRedirects(global.scheduledBlockRanges, global.redirectUrl, host, true, weekday, now);
            if GlobalSpent(global, weekday) then Verdict(onSite + onGlobal + [GlobalLimitRedirect(global, host)], None)
            else Verdict(onSite + onGlobal, Some(Tracking(Some(site), Some(global), tab)))
          else Verdict(onSite, Some(Tracking(Some(site), None, tab)))
      else if host in global.websites then
        if global.timeAllowed[weekday] == UNRESTRICTED then Verdict([], None)
        else
          var onGlobal := ScheduledRedirects(global.scheduledBlockRanges, global.redirectUrl, host, true, weekday, now);
          if GlobalSpent(global, weekday) then Verdict(onGlobal + [GlobalLimitRedirect(global, host)], None)
          else Verdict(onGlobal, Some(Tracking(None, Some(global), tab)))
      else Verdict([], None)
  }

  /** What the policy promises about its verdict `v`. */
  lemma EvaluateProperties(sites: map<string, Site>, global: Global, tab: Tab, weekday: int, now: int, v: Verdict)
    requires SitesWellFormed(sites) && WellFormedGlobal(global) && 0 <= weekday < DAYS_PER_WEEK
    requires v == Evaluate(sites, global, tab, weekday, now)
    // nothing configured for the tab, or its site budget is exempt: no redirect, no timer,
    // and the global budget is not consulted
    ensures !Enforceable(sites, global, tab, weekday) ==> v == Verdict([], None)
    ensures (tab.host.Some? && tab.host.value in sites && SiteExempt(sites[tab.host.value], tab, weekday))
            ==> v == Verdict([], None)
    // a spent site budget ends the evaluation with its limit redirect, after its own scheduled block
    ensures (&& tab.host.Some? && tab.host.value in sites
             && !SiteExempt(sites[tab.host.value], tab, weekday) && SiteSpent(sites[tab.host.value], weekday))
            ==> var site := sites[tab.host.value];
                  v == Verdict(ScheduledRedirects(site.scheduledBlockRanges, site.redirectUrl, tab.host.value, false, weekday, now)
                               + [SiteLimitRedirect(site, tab.host.value)], None)
    // the global budget acts only when it is consulted
    ensures forall r :: r in v.redirects && FromGlobalBudget(r) ==> GlobalConsulted(sites, global, tab, weekday)
    // statistics keys: "Global Budget" for a global limit, the visited host otherwise
    ensures forall r :: r in v.redirects ==>
              tab.host.Some? && r.website == (if r.reason.GlobalLimitReached? then GLOBAL_BUDGET_KEY else tab.host.value)
    // at most one redirect per scope kind: one scheduled block per scope, one limit
    ensures |v.redirects| <= 3
    // only a limit redirect stops tracking; a scheduled-block redirect does not
    ensures Enforceable(sites, global, tab, weekday) ==>
              (v.track.None? <==> exists r :: r in v.redirects && IsLimitRedirect(r))
  {
    if tab.host.Some? {
      var host := tab.host.value;
      var onGlobal := ScheduledRedirects(global.scheduledBlockRanges, global.redirectUrl, host, true, weekday, now);
      if host in sites && !SiteExempt(sites[host], tab, weekday) {
        var site := sites[host];
        var onSite := ScheduledRedirects(site.scheduledBlockRanges, site.redirectUrl, host, false, weekday, now);
        ScheduledRedirectsProperties(site.scheduledBlockRanges, site.redirectUrl, host, false, weekday, now, onSite);
        if SiteSpent(site, weekday) {
          assert SiteLimitRedirect(site, host) in v.redirects;
        } else if GlobalApplies(global, host, weekday) {
          ScheduledRedirectsProperties(global.scheduledBlockRanges, global.redirectUrl, host, true, weekday, now, onGlobal);
          if GlobalSpent(global, weekday) {
            assert GlobalLimitRedirect(global, host) in v.redirects;
          }
        }
      } else if host !in sites && host in global.websites && global.timeAllowed[weekday] != UNRESTRICTED {
        ScheduledRedirectsProperties(global.scheduledBlockRanges, global.redirectUrl, host, true, weekday, now, onGlobal);
        if GlobalSpent(global, weekday) {
          assert GlobalLimitRedirect(global, host) in v.redirects;
        }
      }
    }
  }

  /** A tracking the policy asks for names the tab's site budget iff it has one, the global
      budget iff that is consulted, and only budgets with time left. */
  lemma EvaluateTracking(sites: map<string, Site>, global: Global, tab: Tab, weekday: int, now: int, v: Verdict)
    requires SitesWellFormed(sites) && WellFormedGlobal(global) && 0 <= weekday < DAYS_PER_WEEK
    requires v == Evaluate(sites, global, tab, weekday, now)
    ensures v.track.Some? ==> TracksScopes(v.track.value, sites, global, tab, weekday)
    ensures v.track.Some? ==> TrackingWellFormed(v.track.value)
  {
  }

  /** The scheduled redirect of the site scope, when that scope is enforced. */
  function SitePart(sites: map<string, Site>, tab: Tab, weekday: int, now: int): seq<Redirect>
    requires SitesWellFormed(sites) && 0 <= weekday < DAYS_PER_WEEK
  {
    if SiteEnforced(sites, tab, weekday) then
      var site := sites[tab.host.value];
      ScheduledRedirects(site.scheduledBlockRanges, site.redirectUrl, tab.host.value, false, weekday, now)
    else []
  }

  /** The scheduled redirect of the global scope, when that scope is consulted. */
  function GlobalPart(sites: map<string, Site>, global: Global, tab: Tab, weekday: int, now: int): seq<Redirect>
    requires SitesWellFormed(sites) && WellFormedGlobal(global) && 0 <= weekday < DAYS_PER_WEEK
  {
    if GlobalConsulted(sites, global, tab, weekday) then
      ScheduledRedirects(global.scheduledBlockRanges, global.redirectUrl, tab.host.value, true, weekday, now)
    else []
  }

  /** The limit redirect of the first spent scope that is looked at, if any. */
  function LimitPart(sites: map<string, Site>, global: Global, tab: Tab, weekday: int): seq<Redirect>
    requires SitesWellFormed(sites) && WellFormedGlobal(global) && 0 <= weekday < DAYS_PER_WEEK
  {
    if SiteEnforced(sites, tab, weekday) && SiteSpent(sites[tab.host.value], weekday) then
      [SiteLimitRedirect(sites[tab.host.value], tab.host.value)]
    else if GlobalConsulted(sites, global, tab, weekday) && GlobalSpent(global, weekday) then
      [GlobalLimitRedirect(global, tab.host.value)]
    else []
  }

  /** The redirects of `checkUrlBlockStatus` are the site scope's scheduled redirect, then the
      global scope's, then the limit redirect of the first spent scope: each scope enforces its
      scheduled blocks independently of its allowance. */
  lemma EvaluateIsScopesInOrder(sites: map<string, Site>, global: Global, tab: Tab, weekday: int, now: int, v: Verdict)
    requires SitesWellFormed(sites) && WellFormedGlobal(global) && 0 <= weekday < DAYS_PER_WEEK
    requires v == Evaluate(sites, global, tab, weekday, now)
    ensures v.redirects == SitePart(sites, tab, weekday, now) + GlobalPart(sites, global, tab, weekday, now)
                           + LimitPart(sites, global, tab, weekday)
  {
    var s, g, l := SitePart(sites, tab, weekday, now), GlobalPart(sites, global, tab, weekday, now),
                   LimitPart(sites, global, tab, weekday);
    if s == [] {
      assert s + g + l == g + l;
    }
    if g == [] {
      assert s + g + l == s + l;
    }
    if l == [] {
      assert s + g + l == s + g;
    }
  }

  /** Site-scope redirects, then global-scope redirects, then at most one limit redirect, which
      belongs to the global scope when the global scope issued anything: the scopes stay in that
      order, and only the last redirect can be a limit. */
  lemma ScopesInOrder(site: seq<Redirect>, global: seq<Redirect>, limit: seq<Redirect>)
    requires forall r :: r in site ==> !FromGlobalBudget(r) && !IsLimitRedirect(r)
    requires forall r :: r in global ==> FromGlobalBudget(r) && !IsLimitRedirect(r)
    requires |limit| <= 1 && forall r :: r in limit ==> IsLimitRedirect(r)
    requires global != [] ==> forall r :: r in limit ==> FromGlobalBudget(r)
    ensures var rs := site + global + limit;
            forall i, j :: 0 <= i < j < |rs| && FromGlobalBudget(rs[i]) ==> FromGlobalBudget(rs[j])
    ensures var rs := site + global + limit;
            forall i :: 0 <= i < |rs| && IsLimitRedirect(rs[i]) ==> i == |rs| - 1
  {
    var rs := site + global + limit;
    forall i | 0 <= i < |rs| ensures rs[i] in site || rs[i] in global || rs[i] in limit
      ensures i < |site| ==> rs[i] in site
      ensures |site| <= i < |site| + |global| ==> rs[i] in global
      ensures |site| + |global| <= i ==> rs[i] in limit
    {
      if i < |site| {
        assert rs[i] == site[i];
      } else if i < |site| + |global| {
        assert rs[i] == global[i - |site|];
      } else {
        assert rs[i] == limit[i - |site| - |global|];
      }
    }
  }

  /** The site scope enforces its scheduled blocks whatever its allowance says: an enforced
      site scope opens with its scheduled redirect exactly when one of its ranges blocks `now`,
      and that redirect names a blocking range of the site and goes to the site's setting. */
  lemma EvaluateSiteScheduledBlock(sites: map<string, Site>, global: Global, tab: Tab, weekday: int, now: int, v: Verdict)
    requires SitesWellFormed(sites) && WellFormedGlobal(global) && 0 <= weekday < DAYS_PER_WEEK
    requires v == Evaluate(sites, global, tab, weekday, now)
    ensures SiteEnforced(sites, tab, weekday) ==>
              (AnyBlocks(sites[tab.host.value].scheduledBlockRanges, weekday, now)
               <==> |v.redirects| > 0 && SiteScheduled(v.redirects[0]))
    ensures SiteEnforced(sites, tab, weekday) && AnyBlocks(sites[tab.host.value].scheduledBlockRanges, weekday, now) ==>
              && |v.redirects| > 0
              && v.redirects[0].url == sites[tab.host.value].redirectUrl && v.redirects[0].website == tab.host.value
    ensures forall r :: r in v.redirects && SiteScheduled(r) ==>
              && tab.host.Some? && tab.host.value in sites
              && r.reason.range in sites[tab.host.value].scheduledBlockRanges && Blocks(r.reason.range, weekday, now)
  {
    EvaluateIsScopesInOrder(sites, global, tab, weekday, now, v);
    var s, g, l := SitePart(sites, tab, weekday, now), GlobalPart(sites, global, tab, weekday, now),
                   LimitPart(sites, global, tab, weekday);
    if SiteEnforced(sites, tab, weekday) {
      var site := sites[tab.host.value];
      ScheduledRedirectsProperties(site.scheduledBlockRanges, site.redirectUrl, tab.host.value, false, weekday, now, s);
    }
    if GlobalConsulted(sites, global, tab, weekday) {
      ScheduledRedirectsProperties(global.scheduledBlockRanges, global.redirectUrl, tab.host.value, true, weekday, now, g);
    }
    if s != [] {
      assert v.redirects[0] == s[0];
    } else if g != [] {
      assert v.redirects[0] == g[0];
    }
  }

  /** The global scope enforces its scheduled blocks whatever its allowance says: a consulted
      global scope issues a scheduled redirect exactly when one of its ranges blocks `now`,
      naming a blocking range of the global budget. */
  lemma EvaluateGlobalScheduledBlock(sites: map<string, Site>, global: Global, tab: Tab, weekday: int, now: int, v: Verdict)
    requires SitesWellFormed(sites) && WellFormedGlobal(global) && 0 <= weekday < DAYS_PER_WEEK
    requires v == Evaluate(sites, global, tab, weekday, now)
    ensures GlobalConsulted(sites, global, tab, weekday) ==>
              (AnyBlocks(global.scheduledBlockRanges, weekday, now)
               <==> exists r :: r in v.redirects && GlobalScheduled(r))
    ensures forall r :: r in v.redirects && GlobalScheduled(r) ==>
              r.reason.range in global.scheduledBlockRanges && Blocks(r.reason.range, weekday, now)
  {
    EvaluateIsScopesInOrder(sites, global, tab, weekday, now, v);
    var s, g, l := SitePart(sites, tab, weekday, now), GlobalPart(sites, global, tab, weekday, now),
                   LimitPart(sites, global, tab, weekday);
    if SiteEnforced(sites, tab, weekday) {
      var site := sites[tab.host.value];
      ScheduledRedirectsProperties(site.scheduledBlockRanges, site.redirectUrl, tab.host.value, false, weekday, now, s);
    }
    if GlobalConsulted(sites, global, tab, weekday) {
      ScheduledRedirectsProperties(global.scheduledBlockRanges, global.redirectUrl, tab.host.value, true, weekday, now, g);
      if g != [] {
        assert v.redirects[|s|] == g[0] && v.redirects[|s|] in v.redirects;
      }
    }
  }

  /** Each redirect goes to the redirect setting of its own scope; the site scope's redirects
      come before the global scope's, a limit redirect is the last one, and a consulted,
      spent global budget ends the evaluation with its limit redirect. */
  lemma EvaluateRedirectOrder(sites: map<string, Site>, global: Global, tab: Tab, weekday: int, now: int, v: Verdict)
    requires SitesWellFormed(sites) && WellFormedGlobal(global) && 0 <= weekday < DAYS_PER_WEEK
    requires v == Evaluate(sites, global, tab, weekday, now)
    ensures forall r :: r in v.redirects && FromGlobalBudget(r) ==> r.url == global.redirectUrl
    ensures forall r :: r in v.redirects && !FromGlobalBudget(r) ==>
              tab.host.Some? && tab.host.value in sites && r.url == sites[tab.host.value].redirectUrl
    ensures forall i, j :: 0 <= i < j < |v.redirects| && FromGlobalBudget(v.redirects[i]) ==> FromGlobalBudget(v.redirects[j])
    ensures forall i :: 0 <= i < |v.redirects| && IsLimitRedirect(v.redirects[i]) ==> i == |v.redirects| - 1
    ensures GlobalConsulted(sites, global, tab, weekday) && GlobalSpent(global, weekday) ==>
              |v.redirects| > 0 && v.redirects[|v.redirects| - 1] == GlobalLimitRedirect(global, tab.host.value)
  {
    EvaluateIsScopesInOrder(sites, global, tab, weekday, now, v);
    var s, g, l := SitePart(sites, tab, weekday, now), GlobalPart(sites, global, tab, weekday, now),
                   LimitPart(sites, global, tab, weekday);
    if SiteEnforced(sites, tab, weekday) {
      var site := sites[tab.host.value];
      ScheduledRedirectsProperties(site.scheduledBlockRanges, site.redirectUrl, tab.host.value, false, weekday, now, s);
    }
    if GlobalConsulted(sites, global, tab, weekday) {
      ScheduledRedirectsProperties(global.scheduledBlockRanges, global.redirectUrl, tab.host.value, true, weekday, now, g);
    }
    ScopesInOrder(s, g, l);
  }
}
