# ED AFK Monitor — a Dafny model of its event processor

ED AFK Monitor follows the journal that Elite Dangerous writes while a ship
sits at a combat site. For each journal record it updates two objects:

- `session` (class `Instance`) holds the counters of the current deployment;
- `track` (class `Tracking`) holds the run totals, the mission list, the
  warning stamps and the notification dedup state.

It reports what happened through `logevent`, which prints to the terminal
and may notify a Discord webhook. A health check runs once a minute and warns
when the kill rate drops or no kills come in. At shutdown it prints a summary.

This project models that core in Dafny. The model has two layers.

- **Value layer.** Pure functions over value copies of the two objects:
  - `State`: the tracking state, `sessionstart`, `sessionend` and `logevent`;
  - `Events`: every `processevent` handler, and `processevent` itself;
  - `Health`: the health tick, the end of the preload and the shutdown summary;
  - `Levels`: the log-level lookup;
  - `Format`: `time_format`, the branch `num_format` takes, and the faction
    truncation;
  - `Text`: the Python string operations these use;
  - `Journal`: the journal records and the ship lists.
- **Imperative layer.** Classes and methods that change state in place and
  are proved against the value layer:
  - `Monitor`: the classes `Instance` and `Tracking`, and the `logevent` methods;
  - `Processor`: the `processevent` handlers;
  - `MainLoop`: the end of the preload, the health check and `shutdown`.

  Each method ensures that the new state of the objects, together with what
  it emitted, equals the value function applied to the old state.

Properties of the value layer are proved in `Rules`, `Properties` and `Laws`:

- for each notifying handler and each health warning, what it changes and
  which notice it logs, case by case (`Rules`);
- a tracking invariant that every handler and the health check keep;
- the preload notifies no one;
- nothing is tracked before the mission snapshot;
- the kill-interval bookkeeping telescopes;
- dedup streaks;
- `time_format` can be read back;
- a group of single-handler laws.

Emissions are values. `Local(topic)` is a terminal line. `Remote(topic,
mention)` is a webhook message. `SuppressNotice` is the one "suppressing
further messages" notice. `LevelWarning(key)` is what `getloglevel`
prints. `EventError(name)` is the line `processevent` prints when a handler
raises. A handler ends `Handled`, `Raised` (the Python handler threw, and the
`except` at afk_monitor.py:668-671 caught it) or `Exited` (`Shutdown` calls
`sys.exit()`).

Behaviour of afk_monitor.py worth noting:

- `sessionend` only clears the deployment time (afk_monitor.py:183-187). It
  does not zero the session counters. They are reset by the next
  `sessionstart`.
- The health check has one cooldown, `cooldown`. Only an expired kill-rate
  warning doubles it. The no-kill warning's expiry uses the same, possibly
  doubled, cooldown (afk_monitor.py:793-794, 816). The "last kill was N minutes
  ago" warning in the kill branch arms `warnedkillrate`, not `warnednokills`
  (afk_monitor.py:810-813).
- `getloglevel` accepts a TOML boolean as a level, because in Python `bool`
  is a subclass of `int`. `true` is level 1 and `false` is level 0
  (afk_monitor.py:399; the configuration is read with `tomllib`,
  afk_monitor.py:80-83).
- `sessionstart` is idempotent only while a deployment time is set. A session
  started by a record without a timestamp stays undeployed (afk_monitor.py:174-175).
  Records here always carry a timestamp, so this idempotence is what
  `Laws.SessionStartIdempotent` states.

## Model

| member | source | states |
|---|---|---|
| Text.RStrip | afk_monitor.py:485 | the result is a prefix of the input, does not end in whitespace, and only whitespace was dropped |
| Text.TitleFrom | afk_monitor.py:419 | `str.title()`: the length is kept, the cased positions are kept, every character is kept up to case, and characters that are not letters pass through |
| Text.TitleFromCase | afk_monitor.py:419 | a letter comes out upper-case if and only if it starts a word: no letter precedes it |
| Text.Title | afk_monitor.py:472 | the title-cased ship, target or cargo name has the length of the journal name, keeps every character up to case, and changes no character that is not a letter |
| Text.TitleWords | afk_monitor.py:472 | in the title-cased name exactly the letters that start a word are upper-case |
| Format.NatToString | afk_monitor.py:681-685 | the `{:d}` rendering of a count is a non-empty string of decimal digits, and it starts with `0` exactly when the count is zero |
| Format.DigitsRoundTrip | afk_monitor.py:681-685 | reading the decimal digits back gives the number rendered |
| Format.ReadHours | afk_monitor.py:680-681 | the `XhYm` form reads back as hours and minutes |
| Format.ReadMinutes | afk_monitor.py:682-683 | the `XmYs` form reads back as minutes and seconds |
| Format.ReadSeconds | afk_monitor.py:684-685 | the `Xs` form reads back as seconds |
| Format.TimeFormat | afk_monitor.py:674-685 | `time_format`; stated by `Format.TimeFormatDenotes` and `Format.TimeFormatExamples` |
| Format.TimeFormatDenotes | afk_monitor.py:674-685 | `time_format` denotes the duration it was given: exactly below an hour, and with the seconds dropped from an hour up |
| Format.TimeFormatExamples | afk_monitor.py:674-685 | 120 s is `2m0s`, 59 s is `59s` and 3725 s is `1h2m` |
| Format.NumMagnitude | afk_monitor.py:687-695 | `num_format` uses millions exactly from 999 500 up, thousands exactly from 1 000 to below 999 500, and the plain number below 1 000 |
| Format.NumMagnitudeMonotone | afk_monitor.py:690-695 | a larger number never gets a smaller unit |
| Format.TruncateFaction | afk_monitor.py:485 | a faction name longer than 33 characters becomes its first 30 characters without trailing whitespace, plus `...`; shorter ones are kept whole; no result is longer than 33 characters |
| Levels.LevelTable | afk_monitor.py:328-331 | the table has exactly the default keys; each holds the configured override when there is one and the default otherwise |
| Levels.GetLogLevel | afk_monitor.py:398-404 | an integer entry is returned as is and a boolean as 1 or 0; a warning is printed if and only if the key is missing or its value is not an integer (a float such as `2.0` also warns), and then the level is the key's default, or 1 for an unknown key |
| Levels.LevelTableFallback | afk_monitor.py:398-404 | for a known key a warning means the override was not an integer; without an override the default comes back without a warning |
| State.SessionEnd | afk_monitor.py:183-187 | ending a session clears only the deployment time; the session counters and run totals stay |
| State.LevelNotes | afk_monitor.py:398-404 | one lookup prints at most one fallback warning |
| State.LogContract | afk_monitor.py:370-395 | one `logevent` call counts as logged; prints locally exactly when the level is positive and not in test mode; it sends to the webhook only at level above 1 with a webhook configured, and then: it records the dedup key and repeat count; it sends the message exactly while the count is within DUPE_MAX; it sends the suppression notice exactly when the count is past DUPE_MAX and this streak has not had its notice yet; it mentions the user only above level 2 on the first of a streak; and it emits at most two items |
| State.PreloadIsLocal | afk_monitor.py:372-373 | while preloading, and not in test mode, nothing reaches the webhook |
| State.SessionStart | afk_monitor.py:173-181 | `sessionstart`; what it opens and keeps is stated by `Laws.SessionStartOpens` and `Laws.SessionStartIdempotent` |
| State.Gate | afk_monitor.py:370-395 | `logevent` with the preload clamp; stated by `Rules.GateReported` and `State.PreloadIsLocal` |
| State.Log | afk_monitor.py:379-395 | `logevent` after the clamp; stated by `State.LogContract` |
| State.Dedup | afk_monitor.py:381-395 | the webhook dedup streak; stated by `State.LogContract` and `State.DedupStreak` |
| State.GateAt | afk_monitor.py:370-404 | `logevent` at a looked-up level; stated by `Rules.GateAtReported` |
| State.DedupStreak | afk_monitor.py:381-395 | a streak of n notifications under a new dedup key sends the first DUPE_MAX (at most one with the mention), then one suppression notice, then nothing, and leaves the streak's count in the log state |
| Events.PushRecent | afk_monitor.py:456-457 | the recent-interval list never grows past KILLS_RECENT, always ends with the new interval, and drops its oldest entry only when full |
| Events.Rollup | afk_monitor.py:492-511 | every tenth kill posts the session summary or raises (a division by zero), and raises exactly when one of its divisors is zero; other kills leave everything unchanged; it only logs |
| Events.OnKill | afk_monitor.py:442-512 | a kill leaves the current-event time and last event name to `processevent`; what it changes and reports is stated by `Rules.KillRule` |
| Events.OnShipTargeted | afk_monitor.py:418-441 | a targeted ship leaves the current-event time and last event name to `processevent`; its cases are stated by `Rules.ShipTargetedRule` |
| Events.ShipTargetedShape | afk_monitor.py:418-441 | a targeted ship is ignored, reported as a security scan, or recorded as a new combat target, and nothing else |
| Events.MassacreIds | afk_monitor.py:629-633 | the active ids are exactly those of the snapshot's massacre missions that have not expired, and there are no more of them than entries |
| Events.RemoveFirst | afk_monitor.py:642 | `list.remove`: an absent id changes nothing; a present one shortens the list by one occurrence of it and removes nothing else |
| Events.RemoveFirstAt | afk_monitor.py:642 | `list.remove` drops the first occurrence: the list closes up around it |
| Events.FuelTierOf | afk_monitor.py:542-551 | the reading is critical exactly below 10 % of capacity, low exactly from 10 % to below 20 %, and routine otherwise |
| Events.OnFuel | afk_monitor.py:525-555 | a fuel reading leaves the current-event time and last event name to `processevent`; what it changes and reports is stated by `Rules.FuelRule` |
| Events.OnRedirected | afk_monitor.py:513-524 | a redirected mission leaves the current-event time and last event name to `processevent`; what it changes and reports is stated by `Rules.RedirectedRule` |
| Events.OnMissions | afk_monitor.py:628-636 | the snapshot leaves the current-event time and last event name to `processevent`; what it changes and reports is stated by `Rules.MissionsRule` |
| Events.OnAccepted | afk_monitor.py:637-640 | an accepted mission leaves the current-event time and last event name to `processevent`; what it changes and reports is stated by `Rules.AcceptedRule` |
| Events.OnEnded | afk_monitor.py:641-646 | an ended mission leaves the current-event time and last event name to `processevent`; what it changes and reports is stated by `Rules.EndedRule` |
| Events.OnHull | afk_monitor.py:573-583 | a hull reading leaves the current-event time and last event name to `processevent`; what it changes and reports is stated by `Rules.HullRule` |
| Events.OnText | afk_monitor.py:608-618 | a message leaves the current-event time and last event name to `processevent`; what it changes and reports is stated by `Rules.TextRule` |
| Events.OnLoadGame | afk_monitor.py:592-599 | loading a commander leaves the current-event time and last event name to `processevent`; what it changes and reports is stated by `Rules.LoadGameRule` |
| Events.OnMerits | afk_monitor.py:647-653 | merits leave the current-event time and last event name to `processevent`; what it changes and reports is stated by `Rules.MeritsRule` |
| Events.KillCounted | afk_monitor.py:443-459 | the session after a kill; stated by `Rules.KillRule` and `Properties.KillsTelescope` |
| Events.CountKill | afk_monitor.py:443-459 | the run totals after a kill; stated by `Rules.KillRule` |
| Events.Credit | afk_monitor.py:471-479 | the reward credited; stated by `Rules.KillRule` and `Rules.PayoutCredits` |
| Events.Payout | afk_monitor.py:471-511 | the credited kill, its notice and the rollup; stated by `Rules.PayoutCredits` |
| Events.SecurityScan | afk_monitor.py:421-425 | the security scan; stated by `Rules.SecurityScanRule` and `Laws.SecurityScanFirst` |
| Events.RecordScan | afk_monitor.py:426-441 | a new combat target; stated by `Rules.RecordScanRule`, `Laws.NewTargetRecorded` and `Laws.ScanReportedOnce` |
| Events.ScanNotice | afk_monitor.py:428-441 | the combat-scan notice; stated by `Rules.ScanNoticeRule` |
| Events.Snapshot | afk_monitor.py:629-634 | the first mission snapshot; stated by `Rules.MissionsRule` |
| Events.FuelReport | afk_monitor.py:539-555 | the fuel notice of a tier; stated by `Rules.FuelReported` |
| Events.Notice | afk_monitor.py:556-623 | the fighter, shield, death and cargo notices; each guard and level is stated by `Rules.NoticeRule`, the frame by `Properties.NoticeOnlyGates` |
| Events.BaitFailure | afk_monitor.py:609-614 | a bait failure; stated by `Rules.BaitRule` |
| Events.MeritsCredited | afk_monitor.py:649-650 | the merits credited; stated by `Rules.MeritsRule` |
| Events.MenuExit | afk_monitor.py:588-591 | the main-menu exit; `Rules.SessionTriggers` states that it ends the session and keeps the counters |
| Events.Dropped | afk_monitor.py:603-607 | the drop into a combat zone; `Rules.SessionTriggers` states that it forces a fresh session deployed at the record's time |
| Events.Departure | afk_monitor.py:661-666 | leaving the site; `Rules.SessionTriggers` states that the session ends after the notice |
| Events.Handle | afk_monitor.py:417-666 | no handler sets the current-event time or the last event name |
| Events.HandleSessionEvent | afk_monitor.py:588-666 | no session, mission or travel handler sets the current-event time or the last event name; its session start and end triggers are stated by `Rules.SessionTriggers` |
| Events.Process | afk_monitor.py:407-672 | the record's time becomes the current-event time; the event name becomes the last one seen exactly when the handler completed; a handler that raised ends with the error line naming the event |
| Health.TruncDiv | afk_monitor.py:808 | Python's `int(x / 60)` rounds toward zero: for a non-negative x the quotient times 60 is the largest multiple of 60 not above x, for a negative x the smallest not below it |
| Health.RateBelow | afk_monitor.py:798-799 | the kill-rate test; its use is stated by `Rules.KillRateWarning` |
| Health.KillRateCheck | afk_monitor.py:797-813 | the branch with kills after the expiry; stated by `Rules.KillRateChecked` |
| Health.NoKillsCheck | afk_monitor.py:819-825 | the branch without kills after the expiry; stated by `Rules.NoKillsWarning` |
| Health.TickWithKills | afk_monitor.py:791-813 | stated by `Rules.KillRateWarning` and `Laws.HealthTickCooldown` |
| Health.TickWithoutKills | afk_monitor.py:814-825 | stated by `Rules.NoKillsWarning` |
| Health.HealthTick | afk_monitor.py:780-825 | one pass of the health check; stated by `Laws.HealthTickCadence`, `Laws.HealthTickCooldown`, `Rules.NoKillsWarning`, `Rules.KillRateWarning` and `Properties.HealthKeepsInv` |
| Health.EndPreload | afk_monitor.py:748-767 | the end of the preload; stated by `Laws.EndPreloadAnnounces` |
| Health.ShutdownSummary | afk_monitor.py:715-732 | the shutdown summary raises exactly when there was more than one kill and one of its divisors is zero, and it only logs |
| Rules.GateReported | afk_monitor.py:370-395 | one `logevent` call changes only the log fields, is counted once, prints its topic exactly when the clamped level is positive outside test mode, emits nothing about another topic, and reaches the webhook only with one configured and a clamped level above 1 |
| Rules.GateAtReported | afk_monitor.py:370-404 | the same for a call at a looked-up level; the fallback warning adds no other topic |
| Rules.FuelRule | afk_monitor.py:525-555 | a reading that would divide by zero raises with nothing changed; otherwise the reading and its time are stored, nothing else but the log changes, and the notice is about the reading's tier, at the critical, low or routine level; a routine reading outside a session is not shown |
| Rules.FuelReported | afk_monitor.py:539-555 | the tier's notice changes only the log and uses the tier's level, or level 0 for a routine reading outside a session |
| Rules.RedirectedRule | afk_monitor.py:513-524 | a massacre mission bumps the redirect count and reports the progress, at the "all missions" level exactly when the count reaches the number of active missions; any other mission changes nothing |
| Rules.RedirectedCounted | afk_monitor.py:513-524 | the massacre case of the redirect rule |
| Rules.MissionsRule | afk_monitor.py:628-636 | only the first snapshot is used: it replaces the active list by the snapshot's active massacre ids, zeroes the redirect count and reports how many; a missing list or a later snapshot changes nothing |
| Rules.SnapshotOnce | afk_monitor.py:628-636 | once a snapshot is loaded, any later one is ignored |
| Rules.MassacreIdsAppend | afk_monitor.py:629-633 | the ids of a snapshot are the ids of its parts in order |
| Rules.MassacreIdsOne | afk_monitor.py:630-633 | one entry contributes its id exactly when it is an active massacre mission |
| Rules.AcceptedRule | afk_monitor.py:637-640 | after the snapshot a massacre mission is appended to the active list and the new count is reported; otherwise nothing changes |
| Rules.EndedRule | afk_monitor.py:641-646 | a tracked mission loses one occurrence from the active list and one redirect if any were counted, and the new count is reported; another mission changes nothing |
| Rules.HullRule | afk_monitor.py:573-584 | a changed fighter reading while the player is not piloting it is stored and reported at the fighter level; the player's own hull is reported at the ship level; anything else, an unchanged fighter reading included, changes nothing |
| Rules.TextRule | afk_monitor.py:608-618 | only npc messages count: a bait failure counts one more and is reported; a security attack is reported; other messages change nothing |
| Rules.BaitRule | afk_monitor.py:609-614 | a bait failure counts one more, is reported at the bait level and, when it reaches the webhook, records its own dedup key |
| Rules.LoadGameRule | afk_monitor.py:592-599 | a rank outside Python's index range raises, and so does a progress without a rank; otherwise the commander is announced at level 2 with the rank name, a negative rank counting from the end |
| Rules.MeritsRule | afk_monitor.py:647-653 | merits below 500 with kills still to report are added to the session and run totals with one fewer to report, and reported; otherwise nothing changes |
| Rules.SessionTriggers | afk_monitor.py:588-666 | the main menu ends the session and keeps its counters; a `$MULTIPLAYER` or `$Warzone` drop forces a fresh session deployed at the record's time with the check re-armed; a planetary ring starts a session silently unless one is running; supercruise entry and an FSD jump end the session after the notice; each notice is reported at level 2 and nothing else but the log changes |
| Rules.ShipTargetedRule | afk_monitor.py:418-441 | without a ship nothing happens; a police ship other than the last security scan is a security scan, checked first; otherwise an easy or hard ship not yet scanned is a new combat target; any other target, a repeat of the last security ship included, changes nothing |
| Rules.SecurityScanRule | afk_monitor.py:421-425 | the security scan records the ship as the last one, changes nothing else but the log, and reports `SecurityScanned(ship)` at the `SecurityScan` level |
| Rules.RecordScanRule | afk_monitor.py:426-441 | a new combat target starts the session if none is running, joins the scans, and is reported as `Scanned(ship, hard)` at `ScanHard` unless it is an easy ship, whose level is `ScanEasy` |
| Rules.ScanNoticeRule | afk_monitor.py:428-441 | the combat-scan notice changes only the log and reports `Scanned(ship, hard)` at `ScanHard`, or at `ScanEasy` for an easy ship; the fallback warnings ahead of it add no topic |
| Rules.NoticeRule | afk_monitor.py:556-623 | a lost fighter is reported at `FighterDown` unless the previous record was `StartJump`; a fighter launch at level 2 only for an NPC pilot; shields and the ship's destruction at their categories; cargo only when one item was taken and not abandoned; nothing but the log changes |
| Rules.CargoRule | afk_monitor.py:619-623 | stolen cargo is reported at `CargoLost`, and when sent `CargoLost` is recorded as its dedup key |
| Rules.KillRule | afk_monitor.py:442-512 | a kill opens a session if none is open, counts one more kill and merit to report, clears the scans, records the kill time, adds the interval to the run time and stamps the check clock; a bounty without rewards raises after the count; otherwise the reward is added to the session and run totals, a bond renames the reward kind, and the kill notice is printed when its level allows |
| Rules.PayoutCredits | afk_monitor.py:471-511 | crediting changes the state only as `Credit` does, besides the log, and the kill notice is printed when its level allows |
| Rules.RollupPosts | afk_monitor.py:492-511 | a tenth kill without a zero divisor logs two summary lines, three with merits, each printed exactly when its summary level allows |
| Rules.ShutdownTotals | afk_monitor.py:715-732 | unless it raises, shutdown logs three or four totals after more than one kill, none otherwise, and the stop notice; the totals and the stop notice are printed exactly when their levels allow |
| Rules.TotalsLogged | afk_monitor.py:715-732 | the case of the shutdown summary with more than one kill |
| Rules.NoKillsWarning | afk_monitor.py:780-825 | before the first kill a due check warns of no kills once the session is five minutes old, unless a warning within the cooldown is armed, and stamps the warning with the check time; otherwise it only stamps the check and disarms an expired warning |
| Rules.KillRateWarning | afk_monitor.py:780-813 | with kills a due check warns of a low rate after five minutes of session and five minutes after a no-kill warning, or else of a last kill older than the configured minutes; both wait for an armed kill-rate warning to expire, the cooldown doubles when it does, and a missing last-kill time is a tracking error |
| Rules.KillRateChecked | afk_monitor.py:797-813 | the three cases of the kill-rate branch |
| Rules.RateLowChecked | afk_monitor.py:798-805 | the low-rate case |
| Rules.LastKillChecked | afk_monitor.py:806-813 | the last-kill case |
| Laws.SessionStartOpens | afk_monitor.py:173-181 | a deployed session without reset is left alone; otherwise the deployment time becomes the event time, the session is fresh, both warnings are cleared and the check clock restarts; the run kills, time, rewards and merits, the mission list, the redirect count and the log state stay |
| Laws.SessionStartIdempotent | afk_monitor.py:173-175 | starting again without reset after a start changes nothing |
| Laws.ScanReportedOnce | afk_monitor.py:426 | a ship already scanned this session is not reported or recorded again |
| Laws.SecurityScanFirst | afk_monitor.py:421-425 | a police ship other than the last one scanned is recorded as the last security scan, with no combat scan and no session start |
| Laws.NewTargetRecorded | afk_monitor.py:426-428 | a new combat target joins the session's scans, and the session is deployed afterwards |
| Laws.AcceptThenEnd | afk_monitor.py:637-646 | accepting a massacre mission and then ending it leaves the same missions tracked |
| Laws.LoadoutCapacity | afk_monitor.py:600-601 | after a `Loadout` the tank capacity is at least 2, and is the reported one whenever that is at least 2, and 64 otherwise |
| Laws.HealthTickCadence | afk_monitor.py:780-789 | the check does nothing until it is due; once due, it stamps the last stamp plus 60 seconds, so drift does not accumulate, or the current time for a first check |
| Laws.HealthTickCooldown | afk_monitor.py:791-817 | only an expired kill-rate warning changes the cooldown, and it doubles it; the check never touches the session or the deployment time |
| Laws.EndPreloadAnnounces | afk_monitor.py:748-767 | after the preload the clamp is lifted and the session is reset when asked for; the only modelled webhook message is the start notice, without a mention, and it goes out exactly when a webhook is configured |
| Laws.ShutdownAnnounces | afk_monitor.py:715-732 | outside the preload and unless the summary raises, shutdown completes; it prints that monitoring stopped on the terminal outside test mode, and sends it to the webhook when one is configured |
| Properties.Inv | afk_monitor.py:126-171 | the tracking invariant: at most KILLS_RECENT recent intervals, a last-kill time once there are kills, and counters that are not negative |
| Properties.Run | afk_monitor.py:745-747 | processing journal records one after another; stated by `Properties.RunKeepsInv` and `Properties.PreloadRunIsQuiet` |
| Properties.InitialInv | afk_monitor.py:126-171 | the freshly constructed objects satisfy the tracking invariant |
| Properties.GateKeepsInv | afk_monitor.py:370-395 | logging keeps the invariant |
| Properties.GateAtKeepsInv | afk_monitor.py:370-404 | logging at a looked-up level keeps the invariant |
| Properties.KillKeepsInv | afk_monitor.py:442-512 | a kill keeps at most KILLS_RECENT intervals, a last-kill time once there are kills, and counters that do not go negative |
| Properties.SessionEventKeepsInv | afk_monitor.py:588-666 | the session, mission and travel handlers keep the invariant |
| Properties.ShipTargetedKeepsInv | afk_monitor.py:418-441 | a targeted ship keeps the invariant |
| Properties.RecordScanKeepsInv | afk_monitor.py:426-441 | recording a scan, which may start a session, keeps the invariant |
| Properties.FuelKeepsInv | afk_monitor.py:525-555 | a fuel reading keeps the invariant |
| Properties.FuelReportOnlyGates | afk_monitor.py:542-555 | the fuel notice changes only the log state |
| Properties.TextKeepsInv | afk_monitor.py:608-618 | a message keeps the invariant |
| Properties.MeritsKeepsInv | afk_monitor.py:647-653 | merits keep the invariant; the count of kills still to report does not go negative |
| Properties.NoticeOnlyGates | afk_monitor.py:556-623 | the fighter, shield, death and cargo notices change only the log state |
| Properties.HandleKeepsInv | afk_monitor.py:417-666 | every handler keeps the invariant |
| Properties.ProcessKeepsInv | afk_monitor.py:407-672 | processing a record keeps the invariant, whether its handler completes or raises |
| Properties.RunKeepsInv | afk_monitor.py:745-747 | processing a sequence of journal records keeps the invariant |
| Properties.HealthKeepsInv | afk_monitor.py:776-829 | the health check keeps the invariant |
| Properties.KillRateCheckKeepsInv | afk_monitor.py:797-813 | the kill-rate branch keeps the invariant |
| Properties.NoKillsCheckKeepsInv | afk_monitor.py:819-825 | the no-kill branch keeps the invariant |
| Properties.GateAtNeverFaults | afk_monitor.py:826-829 | logging never produces a tracking error |
| Properties.KillRateCheckNeverFaults | afk_monitor.py:797-813 | with kills and a last-kill time, the kill-rate branch never raises |
| Properties.NoKillsCheckNeverFaults | afk_monitor.py:819-825 | the no-kill branch never raises |
| Properties.InvNoTrackingError | afk_monitor.py:776-829 | under the invariant the health check's `except` never fires |
| Properties.GatesQuiet | afk_monitor.py:372-373 | while preloading every log call stays off the webhook and keeps the preload flag |
| Properties.ShipTargetedQuiet | afk_monitor.py:418-441 | while preloading a targeted ship notifies no one |
| Properties.SecurityScanQuiet | afk_monitor.py:421-425 | while preloading a security scan notifies no one |
| Properties.RecordScanQuiet | afk_monitor.py:426-441 | while preloading a combat scan notifies no one |
| Properties.KillQuiet | afk_monitor.py:442-512 | while preloading a kill and its rollup notify no one |
| Properties.PayoutQuiet | afk_monitor.py:471-511 | while preloading the kill notice and rollup notify no one |
| Properties.RollupQuiet | afk_monitor.py:492-511 | while preloading the rollup notifies no one |
| Properties.FuelQuiet | afk_monitor.py:525-555 | while preloading a fuel reading notifies no one |
| Properties.FuelReportQuiet | afk_monitor.py:539-555 | while preloading no fuel tier notifies anyone |
| Properties.TextQuiet | afk_monitor.py:608-618 | while preloading bait failures and security attacks notify no one |
| Properties.HullQuiet | afk_monitor.py:573-583 | while preloading hull readings notify no one |
| Properties.RedirectedQuiet | afk_monitor.py:513-524 | while preloading redirected missions notify no one |
| Properties.MeritsQuiet | afk_monitor.py:647-653 | while preloading merits notify no one |
| Properties.SessionEventQuiet | afk_monitor.py:588-666 | while preloading the session, mission and travel handlers notify no one |
| Properties.LoadGameQuiet | afk_monitor.py:592-599 | while preloading a commander load notifies no one |
| Properties.MissionsQuiet | afk_monitor.py:628-646 | while preloading mission events notify no one |
| Properties.NoticeQuiet | afk_monitor.py:556-587 | while preloading the fighter, shield, death and cargo notices reach no one |
| Properties.HandleQuiet | afk_monitor.py:417-666 | while preloading no handler notifies anyone or ends the preload |
| Properties.ProcessQuiet | afk_monitor.py:407-672 | while preloading processing a record notifies no one, not even when it raises |
| Properties.PreloadRunIsQuiet | afk_monitor.py:744-747 | the whole preload of old journal records sends nothing to the webhook |
| Properties.KillsTelescope | afk_monitor.py:443-459 | after kills at given times in a fresh session: the kill count and merits to report grow by the number of kills; the scans are cleared and the last kill is the latest; the summed intervals are the span from the first kill to the last; the recent list holds the last KILLS_RECENT intervals |
| Properties.GapsSum | afk_monitor.py:453-458 | the intervals between consecutive kills sum to the span from the first to the last |
| Properties.MissionEventsWithoutSnapshot | afk_monitor.py:628-646 | before the mission snapshot, accepted and ended missions change nothing that is tracked |
| Properties.ShipTargetedKeepsMissions | afk_monitor.py:418-441 | scans leave the missions alone |
| Properties.KillKeepsMissions | afk_monitor.py:442-512 | kills leave the missions alone |
| Properties.FuelKeepsMissions | afk_monitor.py:525-555 | fuel readings leave the missions alone |
| Properties.TextKeepsMissions | afk_monitor.py:608-618 | messages leave the missions alone |
| Properties.HandleWithoutSnapshot | afk_monitor.py:417-666 | before the snapshot no event except the snapshot itself changes the tracked missions |
| Properties.NoTrackingBeforeSnapshot | afk_monitor.py:628-646 | until a snapshot record is read, no mission is tracked, over any sequence of records |
| Monitor.Instance.constructor | afk_monitor.py:126-128 | a new session object holds a fresh session |
| Monitor.Instance.Reset | afk_monitor.py:130-142 | `reset` gives a fresh session |
| Monitor.Instance.ResetKills | afk_monitor.py:131-134 | the scans and the kill-interval fields are cleared |
| Monitor.Instance.ResetRewards | afk_monitor.py:135-142 | the kill, bounty and merit counters are zeroed |
| Monitor.Instance.ResetOthers | afk_monitor.py:138-141 | the security, bait and fuel fields are cleared |
| Monitor.Instance.RecordInterval | afk_monitor.py:456-457 | the interval joins the bounded recent list, and nothing else changes |
| Monitor.Instance.Tally | afk_monitor.py:444-450 | a kill clears the scans and counts one more kill and merit to report |
| Monitor.Instance.AddInterval | afk_monitor.py:455-457 | the interval is added to the kill time and to the recent list |
| Monitor.Instance.CountKill | afk_monitor.py:444-459 | the session after a kill is `Events.KillCounted` of the old one |
| Monitor.Instance.AddBounty | afk_monitor.py:478 | the bounty total grows by the reward |
| Monitor.Instance.AddScan | afk_monitor.py:428 | the ship is appended to the scans |
| Monitor.Instance.SetLastSecurity | afk_monitor.py:422 | the last security ship is recorded |
| Monitor.Instance.AddBaitFail | afk_monitor.py:610 | one more bait failure |
| Monitor.Instance.SetFuel | afk_monitor.py:536-537 | the reading and its time are stored |
| Monitor.Instance.AddMerits | afk_monitor.py:649 | the session merits grow by the gain |
| Monitor.Instance.MeritReported | afk_monitor.py:653 | one fewer kill's merits to report |
| Monitor.Tracking.constructor | afk_monitor.py:144-171 | the tracking object starts undeployed, preloading, with empty totals and no missions |
| Monitor.Tracking.SessionStart | afk_monitor.py:173-181 | `sessionstart` on the objects is `State.SessionStart` on their values |
| Monitor.Tracking.Deploy | afk_monitor.py:175-180 | deployment sets the deployment time, clears both warnings and restarts the check clock |
| Monitor.Tracking.ClearWarnings | afk_monitor.py:178-179 | both warnings are cleared |
| Monitor.Tracking.CountKill | afk_monitor.py:443-459 | the objects after a kill are `Events.CountKill` of the old state |
| Monitor.Tracking.AddTotals | afk_monitor.py:446-458 | the run kill total and run time grow, and the check clock is stamped |
| Monitor.Tracking.AddTime | afk_monitor.py:458 | the run time grows by the interval |
| Monitor.Tracking.Credit | afk_monitor.py:471-479 | the reward is credited as `Events.Credit` says |
| Monitor.Tracking.AddReward | afk_monitor.py:476-479 | the run bounty total grows and the reward kind is set |
| Monitor.Tracking.AddBaitFail | afk_monitor.py:610 | one more bait failure in the session |
| Monitor.Tracking.SetLastSecurity | afk_monitor.py:422 | the session's last security ship is recorded |
| Monitor.Tracking.AddScan | afk_monitor.py:428 | the ship is appended to the session's scans |
| Monitor.Tracking.SetFuel | afk_monitor.py:536-537 | the session's fuel reading and time are stored |
| Monitor.Tracking.SetFuelCapacity | afk_monitor.py:601 | the capacity is the reported one when it is at least 2, else 64 |
| Monitor.Tracking.SetCombatRank | afk_monitor.py:625 | the combat rank is recorded |
| Monitor.Tracking.SetCombatProgress | afk_monitor.py:627 | the combat progress is recorded |
| Monitor.Tracking.SetRedirects | afk_monitor.py:514 | the redirect count is set |
| Monitor.Tracking.SetFighterHull | afk_monitor.py:576 | the fighter hull reading is stored |
| Monitor.Tracking.EndMission | afk_monitor.py:642-643 | the mission is removed and the redirect count drops by one if positive |
| Monitor.Tracking.SetMissionsActive | afk_monitor.py:642 | the active mission list is replaced |
| Monitor.Tracking.SetLastCheck | afk_monitor.py:789 | the check clock is stamped |
| Monitor.Tracking.SetWarnedKillRate | afk_monitor.py:805 | the kill-rate warning stamp is set |
| Monitor.Tracking.SetWarnedNoKills | afk_monitor.py:825 | the no-kill warning stamp is set |
| Monitor.Tracking.StopPreloading | afk_monitor.py:748 | the preload flag is cleared |
| Monitor.Tracking.ResetSession | afk_monitor.py:749-750 | the session is reset |
| Monitor.Tracking.SessionEnd | afk_monitor.py:183-187 | `sessionend` on the objects is `State.SessionEnd` on their values |
| Monitor.Dedup | afk_monitor.py:381-395 | the webhook dedup on the object is `State.Dedup` on the log fields |
| Monitor.Log | afk_monitor.py:379-395 | the print, the logged count and the dedup are `State.Log` |
| Monitor.LogEvent | afk_monitor.py:370-395 | `logevent` with the preload clamp is `State.Gate` |
| Monitor.LogEventAt | afk_monitor.py:370-404 | `logevent` at a looked-up level is `State.GateAt`, with the fallback warning first |
| Processor.SendRollup | afk_monitor.py:492-511 | the rollup on the objects is `Events.Rollup` |
| Processor.Pay | afk_monitor.py:471-511 | crediting, the kill notice and the rollup are `Events.Payout` |
| Processor.HandleKill | afk_monitor.py:442-512 | the kill handler is `Events.OnKill` |
| Processor.Scan | afk_monitor.py:426-441 | recording a combat scan is `Events.RecordScan` |
| Processor.ReportSecurity | afk_monitor.py:421-425 | the security scan is `Events.SecurityScan` |
| Processor.HandleShipTargeted | afk_monitor.py:418-441 | the targeting handler is `Events.OnShipTargeted`, and it never raises |
| Processor.HandleFuel | afk_monitor.py:525-555 | the fuel handler is `Events.OnFuel` |
| Processor.ReportFuel | afk_monitor.py:539-555 | the tier's notice is `Events.FuelReport` |
| Processor.HandleRedirected | afk_monitor.py:513-524 | the redirect handler is `Events.OnRedirected`, and it never raises |
| Processor.LoadMissions | afk_monitor.py:629-633 | the loop over the snapshot leaves exactly its active massacre ids, in order |
| Processor.LoadSnapshot | afk_monitor.py:628-634 | loading the snapshot is `Events.Snapshot` |
| Processor.HandleMissions | afk_monitor.py:628-636 | the snapshot handler is `Events.OnMissions`, and it never raises |
| Processor.HandleAccepted | afk_monitor.py:637-640 | the acceptance handler is `Events.OnAccepted`, and it never raises |
| Processor.HandleEnded | afk_monitor.py:641-646 | the mission-end handler is `Events.OnEnded`, and it never raises |
| Processor.HandleHull | afk_monitor.py:573-583 | the hull handler is `Events.OnHull`, and it never raises |
| Processor.ReportBait | afk_monitor.py:609-614 | the bait failure is `Events.BaitFailure` |
| Processor.HandleText | afk_monitor.py:608-618 | the message handler is `Events.OnText`, and it never raises |
| Processor.HandleLoadGame | afk_monitor.py:592-599 | the commander handler is `Events.OnLoadGame` |
| Processor.CreditMerits | afk_monitor.py:649-650 | the gain is added to the session and the run |
| Processor.HandleMerits | afk_monitor.py:647-653 | the merits handler is `Events.OnMerits`, and it never raises |
| Processor.ExitToMenu | afk_monitor.py:588-591 | the main-menu exit is `Events.MenuExit` |
| Processor.DropIn | afk_monitor.py:603-607 | the drop into a combat site is `Events.Dropped` |
| Processor.Depart | afk_monitor.py:661-666 | leaving the site is `Events.Departure` |
| Processor.HandleEvent | afk_monitor.py:417-666 | the dispatch is `Events.Handle` |
| Processor.HandleNotice | afk_monitor.py:556-623 | the notices are `Events.Notice` |
| Processor.HandleSessionEvent | afk_monitor.py:588-666 | the session, mission and travel dispatch is `Events.HandleSessionEvent` |
| Processor.ProcessEvent | afk_monitor.py:407-672 | `processevent` on the objects is `Events.Process` |
| MainLoop.EndPreload | afk_monitor.py:748-767 | the end of the preload on the objects is `Health.EndPreload` |
| MainLoop.HealthCheck | afk_monitor.py:780-825 | the health check on the objects, with the cooldown, is `Health.HealthTick` |
| MainLoop.CheckWithKills | afk_monitor.py:791-813 | the branch with kills is `Health.TickWithKills` |
| MainLoop.CheckKillRate | afk_monitor.py:797-813 | the kill-rate test is `Health.KillRateCheck` |
| MainLoop.CheckWithoutKills | afk_monitor.py:814-825 | the branch without kills is `Health.TickWithoutKills` |
| MainLoop.Shutdown | afk_monitor.py:715-732 | `shutdown` on the objects is `Health.ShutdownSummary` |

## Left out

- Reading the configuration file and the command line, finding the journal, and tailing it are I/O. The records arrive already parsed; the settings arrive as a `Config` value.
- A journal line that is not valid JSON (afk_monitor.py:409-412) is not modelled. Records without a timestamp are also not modelled: every record carries an integer time in seconds.
- The Discord transport is left out: `discordsend`, webhook editing, the forum-channel mention, the startup banner and the update check (afk_monitor.py:756-763). An emission `Remote(topic, mention)` stands for a message sent.
- Terminal colours, emoji and the wording of messages are left out. Each notification is a `Topic` value. The topic carries the figures the model tracks, but some displayed figures are not carried:
  - the `[N cr]` bounty value a kill notice shows when `BountyValue` is set (afk_monitor.py:319, 482);
  - the pilot rank of a scan (afk_monitor.py:419, 437-438);
  - the ship, game mode and combat progress of a commander load (afk_monitor.py:593-597). `CmdrLoaded` carries the commander and the rank name only.
- `updatetitle` and `debug` only write to the terminal title and the debug log, and are left out.
- The `lines` counter (afk_monitor.py:747, 836) is left out. It feeds only the title.
- The repeat suppression of the health check's error line (`trackingerror`, afk_monitor.py:827-829) is left out, since the check never raises under the invariant (`Properties.InvNoTrackingError`). The sleep loop is left out too.
- The clocks are parameters: `mono` stands for `time.monotonic()` and `utc` for `datetime.now`.
- Rates, averages and their rounding are only displayed, and are not modelled. The model keeps which divisions by zero make the rollup, the fuel projection and the shutdown summary raise. The fuel percentage and the time-remaining projection text are left out.
- `num_format`'s rendering (`:g` with one decimal) is left out. Only the choice between millions, thousands and the plain number is modelled.
- Python's `str.title()` is modelled for ASCII letters only.
- The `WarnKillRate` and `WarnNoKills` thresholds (afk_monitor.py:316-317) are whole numbers in `Config`; a fractional TOML setting is not modelled.
- Health.RateBelow: compares the exact kills-per-hour with the threshold, without the `round(…, 1)` of afk_monitor.py:798. A rate within 0.05 below the threshold is therefore not warned about by the source but is by the model.
- Events.OnKill, Events.OnFuel, Events.OnRedirected, Events.OnMissions, Events.OnAccepted, Events.OnEnded, Events.OnHull, Events.OnText, Events.OnLoadGame and Events.OnMerits: each handler's own ensures states only what it leaves to `processevent`. What each changes and reports is stated case by case by its lemma in `Rules` (`Rules.KillRule`, `Rules.FuelRule` and so on).
- Events.OnShipTargeted: its ensures states only what it leaves to `processevent`. Its cases are stated by `Rules.ShipTargetedRule`, and what each case records and reports by `Rules.SecurityScanRule` and `Rules.RecordScanRule`. `Laws.ScanReportedOnce`, `Laws.SecurityScanFirst` and `Laws.NewTargetRecorded` state the dedup and the priority of the security branch.
- Rules.KillRule: states which notices are printed, not the exact webhook sequence of the kill notice and the rollup; those follow from `State.LogContract` for each call.
- Journal records of kinds the processor ignores arrive as `Other(tag)`; the model does not check that the tag differs from the recognised names.
