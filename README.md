# TimeSnatch quota enforcement engine, in Dafny

This project models the background script of the TimeSnatch browser extension
(`TimeSnatch/src/entrypoints/background/index.ts`), the part that enforces screen-time budgets.
It covers three kinds of budget:

- a per-site budget (`BlockedWebsite`), with a daily allowance per weekday, scheduled blocks,
  allow-listed paths and an incognito switch;
- the single global budget, whose allowance is shared by a set of hosts;
- the daily statistics: how often each key was redirected and how many tracked seconds it spent.

When the active tab changes, `checkUrlBlockStatus` runs the day rollover. It then evaluates the
tab's site budget and then the global budget. For each scope it may redirect the tab, once for a
scheduled block and once for a spent allowance, or it may start a 1-second interval
(`updateTime`). Each firing of the interval charges a second to the tracked budgets, stores
their totals, and redirects the tab when an allowance is reached.

Layout, one module per concern:

- `budgets.dfy`: the stored entities (`Site`, `Global`, `Daily`, `Range`, `Tab`) and `Option`.
- `calendar.dfy`: the minute-of-day window test `isWithinScheduledBlock`, the Monday-based
  weekday and the minute-of-day timestamp.
- `schedule.dfy`: the filter-then-`some` scan of `checkScheduledBlock`.
- `redirection.dfy`: the statistics counters (`m[key] = (m[key] || 0) + 1`), the reasons, and the
  redirect target of `redirectToUrl`.
- `policy.dfy`: the decision of `checkUrlBlockStatus` as a pure function `Evaluate`. It returns
  the redirects, in order, and the budgets a new interval would track.
- `transitions.dfy`: the whole script state as one value `EngineState`, with every handler as a
  function of that value. Lemmas state what each step does and which invariants it keeps.
- `engine.dfy`: class `Engine`. Its fields are the module-level state and the stored keys, and
  its methods are the handlers, written statement by statement like the source. Each method is
  proved to change the state exactly as its function in `transitions.dfy` says.

The tick timer `activeBlockTimer` is modelled as one of three values:

- `Idle`: the handle is null;
- `Running(tracking)`: a live interval, with the site copy, global copy and tab its closure
  captured;
- `ClearedNotNulled`: `clearInterval` ran but the handle was left non-null.

The pending 200 ms debounce is a `debounced: Option<Tab>` field. The tab navigations the script
issues are logged in a `navigations` sequence. The current day key is a parameter, not a read of
`Date`. The clock reading `getDay()`, `getHours()`, `getMinutes()` is handed to the entry points
`FireDebounce` and `UpdateTime`. They turn it into the Monday-based weekday (`Calendar.Weekday`)
and the minute of the day (`Calendar.MinuteOfDay`), and the handlers below them take those two
values.

Where the code and the intended design disagree, the model follows the code:

- `checkScheduledBlock` returns nothing that the caller uses (index.ts:310, :320, :339). A
  scheduled-block redirect therefore does not stop the limit check that follows it, nor the start
  of the interval. `Evaluate` can issue a scheduled redirect and still track. `EvaluateProperties`
  states that only a limit redirect stops tracking. `EvaluateSiteScheduledBlock` and
  `EvaluateGlobalScheduledBlock` state that each scope enforces its scheduled blocks whatever its
  allowance says.
- An allow-listed path, an unrestricted site weekday or an exempt incognito tab returns before
  the global budget is looked at (index.ts:299-307). The global budget is consulted only when a
  site budget, if there is one, is neither exempt nor spent (`GlobalConsulted`).
- The rollover of all site budgets is decided by the first site in key order only (index.ts:271).
  When that site's date is current, the other sites are not reset, whatever their dates.
- A reached limit calls `clearInterval` but leaves `activeBlockTimer` non-null (index.ts:381,
  :390, :400). A later `checkUrlBlockStatus` therefore starts no interval until
  `stopCurrentBlocking` runs.
- `storeData` for a website that is no longer stored throws inside its storage callback. The
  model leaves the store unchanged in that case.
- A limit-redirect reason inside `updateTime` uses the tab's parsed host, which may be `null`.
  It is rendered as `"null"`, as JavaScript concatenation does.

## Model

| member | source | states |
|---|---|---|
| Calendar.Weekday | TimeSnatch/src/entrypoints/background/index.ts:293 | `(getDay() + 6) % 7` is a weekday in 0..6, and it is the day just before `getDay()` in Sunday-first order (Monday = 0) |
| Calendar.MinuteOfDay | TimeSnatch/src/entrypoints/background/index.ts:409 | the timestamp is a minute of the day in 0..1439 that decodes back to its hours and minutes |
| Calendar.IsWithinScheduledBlock | TimeSnatch/src/entrypoints/background/index.ts:430-436 | a block with start == end never blocks; a block whose end is before its start blocks exactly the minutes outside [end, start) |
| Calendar.WithinIsCircularInterval | TimeSnatch/src/entrypoints/background/index.ts:430-436 | for minutes of one day, the window test is membership in the circular interval that starts at `start` and lasts `(end - start) mod 1440` minutes |
| Schedule.ActiveToday | TimeSnatch/src/entrypoints/background/index.ts:412 | the filter keeps exactly the ranges whose `days[weekday]` is true, and no more ranges than it was given |
| Schedule.FirstWithin | TimeSnatch/src/entrypoints/background/index.ts:414-427 | the `some` scan finds a range of the list containing `now`, or reports that none contains it |
| Schedule.FirstScheduledBlockIsFirstMatch | TimeSnatch/src/entrypoints/background/index.ts:406-428 | filtering and then scanning picks the first range of the original list that both applies today and contains `now` |
| Schedule.NoScheduledBlockIffNoMatch | TimeSnatch/src/entrypoints/background/index.ts:406-428 | there is no block exactly when no range both applies today and contains `now` |
| Counters.Bump | TimeSnatch/src/entrypoints/background/index.ts:442-443 | the counter under the key rises by exactly 1, from 0 when absent, and the key set gains the key |
| Counters.BumpKeepsOthers | TimeSnatch/src/entrypoints/background/index.ts:442-443 | every other counter is unchanged |
| Redirection.StatKey | TimeSnatch/src/entrypoints/background/index.ts:438 | the statistics key is the given website, or "Others" when none is given |
| Redirection.RedirectTargetProperties | TimeSnatch/src/entrypoints/background/index.ts:449-461 | the target `RedirectTarget` chooses is the inspiration page (with the reason) exactly for an empty setting; otherwise a web address that has a scheme and ends with the setting: the setting itself when it contains "https://" or "http://", else exactly "https://" followed by the setting |
| Redirection.RedirectTargetIsStable | TimeSnatch/src/entrypoints/background/index.ts:456-459 | a web target chosen once is kept unchanged when it is redirected to again |
| Policy.ScheduledRedirectsProperties | TimeSnatch/src/entrypoints/background/index.ts:406-428 | `checkScheduledBlock` redirects at most once, exactly when some range blocks `now` today; the redirect names a block covering `now`, its own scope, and the visited host as statistics key, for the global budget too |
| Policy.EvaluateProperties | TimeSnatch/src/entrypoints/background/index.ts:283-349 | for the verdict of `Evaluate`, the policy of `checkUrlBlockStatus`: no host, no configured budget or an exempt site budget gives no redirect and no timer; a spent site budget gives its scheduled redirect and then its limit redirect, and no timer; global-budget redirects occur only when the global budget is consulted; statistics keys are "Global Budget" for a global limit and the host otherwise; at most 3 redirects; for an enforced tab, tracking stops exactly when a limit redirect is issued |
| Policy.EvaluateTracking | TimeSnatch/src/entrypoints/background/index.ts:326-347 | a tracking the policy asks for names the tab's site budget iff it has one, the global budget iff it is consulted, and only budgets with time left |
| Policy.EvaluateIsScopesInOrder | TimeSnatch/src/entrypoints/background/index.ts:295-349 | the redirects are the site scope's scheduled redirect (when the site budget is enforced), then the global scope's (when the global budget is consulted), then the limit redirect of the first spent scope |
| Policy.EvaluateSiteScheduledBlock | TimeSnatch/src/entrypoints/background/index.ts:309-315 | for a site budget that is not exempt, the first redirect is a site scheduled block exactly when one of its ranges blocks `now`, whether or not the allowance is spent; it goes to the site's redirect setting under the visited host and names a blocking range of the site |
| Policy.EvaluateGlobalScheduledBlock | TimeSnatch/src/entrypoints/background/index.ts:318-339 | when the global budget is consulted, a global scheduled block is issued exactly when one of its ranges blocks `now`, whether or not the allowance is spent; it names a blocking range of the global budget |
| Policy.EvaluateRedirectOrder | TimeSnatch/src/entrypoints/background/index.ts:308-349 | each redirect goes to the redirect setting of its own scope; site-scope redirects come before global-scope ones; a limit redirect is always the last one; a consulted, spent global budget ends with its limit redirect |
| Transitions.Redirected | TimeSnatch/src/entrypoints/background/index.ts:438-462 | one redirect appends one navigation of the tab to the chosen target and changes nothing but the blocked counts and the navigations |
| Transitions.RedirectedCounts | TimeSnatch/src/entrypoints/background/index.ts:439-447 | one redirect adds 1 under its statistics key and 0 under every other key |
| Transitions.RedirectedAll | TimeSnatch/src/entrypoints/background/index.ts:438-462 | a sequence of redirects changes nothing but the blocked counts and the navigations |
| Transitions.RedirectedAllNavigations | TimeSnatch/src/entrypoints/background/index.ts:449-461 | the tab is navigated once per redirect, in order |
| Transitions.RedirectedAllCounts | TimeSnatch/src/entrypoints/background/index.ts:439-447 | each key's blocked count grows by the number of redirects under that key |
| Transitions.Stopped | TimeSnatch/src/entrypoints/background/index.ts:237-243 | the handle is null afterwards; the badge is blanked only when a handle was held; nothing else changes |
| Transitions.StopIsIdempotent | TimeSnatch/src/entrypoints/background/index.ts:237-243 | stopping twice is the same as stopping once |
| Transitions.ResetSites | TimeSnatch/src/entrypoints/background/index.ts:464-470 | every site budget, and no other key, gets total 0 and today's date |
| Transitions.RolledOver | TimeSnatch/src/entrypoints/background/index.ts:270-281 | the rollover keeps the state consistent: seven allowances per budget, and the key order lists exactly the stored sites, each once |
| Transitions.RolloverEffects | TimeSnatch/src/entrypoints/background/index.ts:270-281 | every site is reset when the first site's date is stale and none otherwise; a stale global budget gets total 0 and today's date; key order, timer, debounce, badge and navigations are kept; nothing changes when nothing is stale |
| Transitions.RolloverArchives | TimeSnatch/src/entrypoints/background/index.ts:270-281 | either rollover empties the daily maps under today's key and files the old maps under their old day; every other day of the history is kept |
| Transitions.ArchivedFiles | TimeSnatch/src/entrypoints/background/index.ts:477-490 | `updateHistoricalData` (`Archived`) files both daily maps under the old day key, empties them and sets the day to today; other days of the history are unchanged |
| Transitions.RolloverIsIdempotent | TimeSnatch/src/entrypoints/background/index.ts:270-281 | a second rollover on the same day changes nothing |
| Transitions.EnforcedEffects | TimeSnatch/src/entrypoints/background/index.ts:283-349 | enforcing the policy (`Enforced`) keeps the state consistent; it navigates once per redirect, in order; it counts each redirect under its key; it starts a timer only when the handle is null; it shows the tracked budget's remaining seconds; it changes nothing else |
| Transitions.CheckedEffects | TimeSnatch/src/entrypoints/background/index.ts:258-352 | a check (`Checked`: rollover, then `Enforced`) keeps the state consistent and changes nothing when no site or global host is configured; the timer changes only from null to a running interval whose tracking fits the rolled-over budgets; the pending debounce is untouched |
| Transitions.TickRedirects | TimeSnatch/src/entrypoints/background/index.ts:376-403 | a tick redirects at most twice, and not at all exactly when no tracked allowance is reached; when both fire, the site redirect comes first; every one is a limit redirect keyed by the site's website or "Global Budget" |
| Transitions.TickRedirectsProperties | TimeSnatch/src/entrypoints/background/index.ts:376-403 | a site limit redirect is issued exactly when a site budget is tracked and spent, and a global one exactly when the global budget is tracked and spent; each goes to its own budget's redirect setting, under the site's website or "Global Budget", with the tab's host in the reason |
| Transitions.StoredSiteEffects | TimeSnatch/src/entrypoints/background/index.ts:494-503 | `storeData` writes the total of that website's budget only, and only when it is stored |
| Transitions.ChargedEffects | TimeSnatch/src/entrypoints/background/index.ts:359-397 | a tick adds 1 second under the site's website (or the tab host with no site budget) and nothing under other keys; it stores the site total plus 1 under its website when that is still stored; it stores the global total plus 1 when the global budget is tracked; it changes nothing else |
| Transitions.SiteTickedIsStoreThenRedirect | TimeSnatch/src/entrypoints/background/index.ts:376-383 | the site half of a tick stores the total, then clears the interval and redirects exactly when the allowance is reached |
| Transitions.GlobalTickedIsStoreThenRedirect | TimeSnatch/src/entrypoints/background/index.ts:385-402 | the global half of a tick stores the total, then clears the interval and redirects exactly when the allowance is reached, and shows its badge only without a site budget |
| Transitions.TickIsChargeThenRedirects | TimeSnatch/src/entrypoints/background/index.ts:355-404 | each tick, whichever budgets it tracks, is its bookkeeping followed by its limit redirects; the interval is cleared, with the handle left set, exactly when a redirect fires |
| Transitions.TickedEffects | TimeSnatch/src/entrypoints/background/index.ts:355-404 | a tick (`Ticked`): its timer, navigations, blocked counts and badge as above; its stored totals and restricted seconds are the bookkeeping's; key order, debounce, day and history are unchanged; the state stays consistent |
| Transitions.TickKeepsConsistent | TimeSnatch/src/entrypoints/background/index.ts:355-404 | a tick keeps the state consistent |
| Transitions.TickKeepsCopiesInStep | TimeSnatch/src/entrypoints/background/index.ts:376-397 | when the closure's copies equal the stored totals, they still do after a tick that keeps running |
| Background.Engine.constructor | TimeSnatch/src/entrypoints/background/index.ts:192 | the script starts with no timer handle, no pending check, a blank badge and no navigation |
| Background.Engine.StopCurrentBlocking | TimeSnatch/src/entrypoints/background/index.ts:237-243 | the state becomes `Stopped` of the old state, and stays consistent |
| Background.Engine.DebounceCheckUrlBlockStatus | TimeSnatch/src/entrypoints/background/index.ts:247-254 | any pending check is replaced by one for the given tab; nothing else changes |
| Background.Engine.FireDebounce | TimeSnatch/src/entrypoints/background/index.ts:251-253 | the timeout clears the pending tab and checks it, on the weekday and minute of day its clock reading gives |
| Background.Engine.RedirectToUrl | TimeSnatch/src/entrypoints/background/index.ts:438-462 | the state becomes `Redirected` of the old state |
| Background.Engine.CheckScheduledBlock | TimeSnatch/src/entrypoints/background/index.ts:406-428 | the redirects performed are exactly `ScheduledRedirects` |
| Background.Engine.UpdateHistoricalData | TimeSnatch/src/entrypoints/background/index.ts:477-491 | the state becomes `Archived` of the old state |
| Background.Engine.ResetDailyTimers | TimeSnatch/src/entrypoints/background/index.ts:464-474 | the loop in key order resets every site budget (`ResetSites`), then archives |
| Background.Engine.StoreData | TimeSnatch/src/entrypoints/background/index.ts:494-503 | the state becomes `StoredSite` of the old state |
| Background.Engine.StoreGlobalData | TimeSnatch/src/entrypoints/background/index.ts:505-515 | the state becomes `StoredGlobal` of the old state |
| Background.Engine.CheckUrlBlockStatus | TimeSnatch/src/entrypoints/background/index.ts:258-352 | the state becomes `Checked` of the old state: rollover, then enforcement, when anything is configured; the state stays consistent |
| Background.Engine.EnforceBudgets | TimeSnatch/src/entrypoints/background/index.ts:283-295 | after the rollover, the state becomes `Enforced` of the old state |
| Background.Engine.EnforceSiteBudget | TimeSnatch/src/entrypoints/background/index.ts:295-333 | for a host with a site budget, the early returns, the site scope and then the global scope give `Enforced` of the old state |
| Background.Engine.EnforceGlobalBudget | TimeSnatch/src/entrypoints/background/index.ts:335-349 | for a host with only the global budget, the global scope gives `Enforced` of the old state |
| Background.Engine.StartTracking | TimeSnatch/src/entrypoints/background/index.ts:328-333 | an interval is started only when the handle is null, and the badge shows the tracked budget's remaining seconds |
| Background.Engine.TickSiteBudget | TimeSnatch/src/entrypoints/background/index.ts:376-383 | the state becomes `SiteTicked` of the old state |
| Background.Engine.TickGlobalBudget | TimeSnatch/src/entrypoints/background/index.ts:385-402 | the state becomes `GlobalTicked` of the old state |
| Background.Engine.CountRestrictedSecond | TimeSnatch/src/entrypoints/background/index.ts:359-374 | one second is counted under the tick's key, when it has one |
| Background.Engine.TickBudgets | TimeSnatch/src/entrypoints/background/index.ts:376-403 | the copies are advanced by one second each, and the site half then the global half run on them |
| Background.Engine.Tick | TimeSnatch/src/entrypoints/background/index.ts:355-404 | the state becomes `Ticked` of the old state |
| Background.Engine.UpdateTime | TimeSnatch/src/entrypoints/background/index.ts:355-404 | the state becomes `Ticked` of the old state on the weekday `getDay()` gives, and stays consistent |

## Left out

- The `onInstalled` bootstrap and the legacy-data migration (index.ts:8-182): one-time storage
  setup. They rely on `validateURL` and `extractHostnameAndDomain` from `lib/utils`, and
  `lib/utils` is not part of this model. The model assumes every storage key exists, so the early
  returns on missing keys (index.ts:260, :360, :440, :496, :507) are not modelled.
- The browser listeners and the 1-second focus poll (index.ts:184-235): these are events. Each
  becomes a call of the handler methods.
- The badge: `setBadge` and `timeDisplayFormatBadge` are browser APIs and a formatter that is not
  part of this model. The badge holds the remaining-seconds integer, or nothing.
- URL parsing (`extractHostnameAndDomain`, `extractPathnameAndParams`): a `Tab` carries its parsed
  host (`None` when parsing fails) and its path.
- The text of a reason (`scheduledBlockDisplay`, the query string of the inspiration page): a
  reason is the structured value it is built from.
- Real time: `Date`, the interval and timeout timing, and midnight passing between two reads of
  the clock inside one handler. The day key, weekday and minute are parameters.
- Concurrency between asynchronous storage callbacks. In the source, the `storage.local.get`
  requests a handler issues in one synchronous run all read the same snapshot, so when two of
  their callbacks write the same key the last `set` overwrites the other. The model runs each
  callback as one atomic step, in call order, each reading what the previous one wrote. The
  per-redirect and per-second counts of `RedirectedAllCounts`, `EnforcedEffects` and
  `TickedEffects` are therefore the intended result, not what the source stores. This applies to
  a scheduled redirect followed by a limit redirect (index.ts:310, :314), a site and a global
  redirect in one tick (index.ts:382, :391), and a tick's restricted second against its redirect
  (index.ts:359-372, :439-445).
- The double archive that follows from the same abstraction: when both the first site and the
  global budget are stale, the model archives twice in one check, and the second archive files
  today's empty maps under today's key. In the source both `updateHistoricalData` calls
  (index.ts:273 through :473, and :280) read the statistics before either callback writes, so the
  old day is filed twice and nothing is filed under today.
- Fields of the global budget that the engine never reads, and the options UI form.
