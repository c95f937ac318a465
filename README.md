# Watch tracking and daily statistics of the Radiopaedia course userscript

The userscript `userscripts.js` adds a sidebar of the Vimeo videos on a
Radiopaedia course page. Its logic sits under the UI, in five parts:

- It remembers which videos were watched. This is a set of video ids kept in
  `localStorage` under `radiopaedia-watched-videos`.
- It marks a video as watched once playback passes 80 %.
- It keeps a per-day ledger under `radiopaedia-daily-stats`. The ledger maps a
  `YYYY-MM-DD` date key to `{videosWatched, totalTimeWatched}`.
- It derives the 7-day series, the week's totals, the bar-chart scale and the
  "X of Y watched" count.
- It has small text helpers: `formatDuration` (`m:ss`), `getVideoId` (the
  digits after `/video/`), the playback-rate cycle `1 → 1.25 → 1.5 → 2 → 1`,
  and the "next lesson" rewrite `pages/N → pages/N+1`.

This Dafny project models that logic and proves its properties.

Modules, one per component:

- `Wrappers`: `Option`, standing for the script's `null`.
- `Text`: decimal digits, `toString` of a non-negative integer, `padStart`.
- `Durations`: `Seconds`, a non-negative real standing for a player duration.
  `Math.floor` and `formatDuration` are defined on it.
- `Patterns`: the first-match search of a regular expression of the form
  `literal(\d+)`. Both `getVideoId` and the next-lesson rewrite are built on it.
- `Playback`: the speed cycle of `toggleSpeed`.
- `Ledger`: the daily ledger, recording one video, the 7-day window, and the
  totals, scale and bar widths of the stats window.
- `Tracking`: the stored values and their keys, plus a pure specification of
  one moment of the script (`Session`, `Load`, `Marked`). The class
  `Tracker` holds the script's module-level state: the page's videos, the
  in-memory watched set and `localStorage`. Its methods update that state in
  place, as the script does.

Modelling choices:

- `localStorage` is a `map<string, Stored>`, where `Stored` is one of:
  - an already decoded id array;
  - a daily ledger;
  - a foreign value under some other key.

  An absent key reads as the script's defaults `"[]"` and `"{}"` (empty list,
  empty ledger).
- The watched `Set` is a sequence without repetitions. A JavaScript `Set`
  iterates in insertion order, and `saveWatchedVideos` stores exactly that
  order. `new Set(array)` is `Dedup`, which keeps each id at its first
  occurrence (`Tracking.DedupExtends`).
- There is no clock. Callers pass "today" as a day number, and the tracker
  holds `dateKey: int -> string`, standing for
  `new Date(...).toISOString().split("T")[0]`. Day `today - i` is the
  `setDate(getDate() - i)` of `getLast7DaysStats`.
- Durations are exact non-negative reals. `Math.floor` is applied where the
  script applies it. Counters are naturals.

The script keeps no per-session dedup set, no unique-videos counter, no
ledger pruning, no case tracking and no per-video time or position counters.
A video is deduplicated only by the persisted watched set, so it counts
toward the daily statistics once ever, not once per page load
(`Tracking.MarkedOnceAcrossReloads`).

## Model

| member | source | states |
|---|---|---|
| `Tracking.Tracker.constructor` | userscripts.js:28-30 | at start-up the in-memory watched set is the stored id array read as a `Set` (empty when the key is absent), no videos are known yet, and the tracker invariant holds |
| `Tracking.Load` | userscripts.js:28-30 | a page load keeps the storage and the page's videos as they are, and reads back as the watched set the stored ids as a `Set`: no repetitions, exactly the stored ids, in sync with storage |
| `Tracking.Dedup` | userscripts.js:28-30 | `new Set(array)` has no repetitions and the same members as the array |
| `Tracking.DedupExtends` | userscripts.js:28-30 | `new Set(array)` iterates in first-occurrence order: the set of any prefix of the array is a prefix of the set of the whole array |
| `Tracking.VideoIds` | userscripts.js:34 | `videos.map(v => v.id)` has one id per video, in the same order |
| `Tracking.DedupOfNoDup` | userscripts.js:276-281 | an array without repetitions, such as the one `saveWatchedVideos` writes, is read back unchanged by `new Set` |
| `Tracking.Tracker.SaveWatchedVideos` | userscripts.js:276-281 | the watched set is written under `radiopaedia-watched-videos`, the stored array now equals it, and nothing else changes |
| `Tracking.PageWatchedCount` | userscripts.js:33-36 | the count of page ids present in the watched set is at most the number of page ids, equals it exactly when every page id is watched, and is zero exactly when none is |
| `Tracking.Tracker.CurrentPageWatchedCount` | userscripts.js:33-36 | the "X of Y watched" count is at most the number of page videos, and equals it exactly when all of them are watched |
| `Tracking.PageCountAfterMark` | userscripts.js:33-36 | adding a new id to the watched set raises the page count by the number of times that id appears on the page |
| `Durations.WholeSeconds` | userscripts.js:69 | `Math.floor` of a non-negative duration is the natural `n` with `n <= d < n + 1` |
| `Durations.SplitMinutes` | userscripts.js:40-41 | the minutes are the whole seconds divided by 60, and the remaining seconds are the whole seconds modulo 60 |
| `Durations.TwoDigits` | userscripts.js:42 | a remainder below 60, zero-padded to two places, is exactly two digits that read back as that remainder |
| `Durations.RemainingSeconds` | userscripts.js:41 | `Math.floor(seconds % 60)` is a whole number of seconds below 60 |
| `Durations.FormatDuration` | userscripts.js:39-43 | `formatDuration` gives at least four characters, starting with a digit and ending in a colon followed by two digits |
| `Durations.FormatDurationParts` | userscripts.js:39-43 | `formatDuration(s)` is the rendering of `floor(s) / 60`, a colon, and `floor(s) % 60` padded to two places |
| `Durations.FormatDurationShape` | userscripts.js:39-43 | `formatDuration(s)` is the digits of `floor(s) / 60`, a colon, then exactly two digits reading as `floor(s) % 60` (0 to 59) |
| `Durations.FormatDurationOfWhole` | userscripts.js:39-43 | `formatDuration` depends only on the whole seconds |
| `Text.NatToString` | userscripts.js:42 | `toString` of a natural is a non-empty digit string without a leading zero, one character long exactly for numbers below 10 |
| `Text.ParseNatToString` | userscripts.js:42 | reading the decimal rendering of `n` back gives `n` |
| `Text.PadStart` | userscripts.js:42 | `padStart(width, fill)` ends with the original string, is `width` long if it was shorter (otherwise unchanged), and is filled with `fill` in front |
| `Ledger.StatsOn` | userscripts.js:55 | a date's stored entry, or `{0, 0}` when the date has none |
| `Tracking.Tracker.TodayStats` | userscripts.js:50-56 | `getTodayStats` returns today's stored entry, or `{0, 0}` when today's key is absent |
| `Tracking.StoredLedger` | userscripts.js:52-54 | an absent stats key reads as the empty ledger (the `"{}"` default) |
| `Tracking.StoredIds` | userscripts.js:29 | an absent watched key reads as the empty array (the `"[]"` default) |
| `Ledger.RecordVideo` | userscripts.js:64-69 | today gains an entry if it had none. Its video count rises by exactly 1 and its time by the given whole seconds. Every other date's entry is unchanged, and no counter decreases |
| `Tracking.Tracker.UpdateTodayStats` | userscripts.js:58-71 | the stored ledger becomes the old one with today's video and floored duration recorded. The watched set and the page's videos are unchanged |
| `Tracking.DurationOf` | userscripts.js:565-566 | the credited duration is that of the first page video with the id, or 0 when there is no such video or its duration is still `null` |
| `Tracking.FindVideoFrom` | userscripts.js:565 | `find` returns the first video with the id, or none when no video has it |
| `Tracking.Marked` | userscripts.js:557-569 | an already-watched id changes nothing. Otherwise: the id is appended to the set; the stored array equals the new set; today's `videosWatched` rises by 1 and `totalTimeWatched` by the floored duration (0 when unknown); other dates and other storage keys are unchanged; no counter decreases |
| `Tracking.Tracker.MarkVideoAsWatched` | userscripts.js:557-569 | the tracker's new state is `Marked` of its old state for today's key, and the invariant keeps the stored set equal to the in-memory one |
| `Tracking.MarkedKeepsValid` | userscripts.js:561-562 | after a mark, the watched set is the old set plus the id, without repetitions, and equal to what a reload reads back from storage |
| `Tracking.MarkedIdempotent` | userscripts.js:557-559 | marking the same id twice, on any days, gives the state of marking it once |
| `Tracking.MarkedOnceAcrossReloads` | userscripts.js:557-562 | after a mark and a page reload, marking the same id again on any day changes nothing, so a video counts toward the daily stats once ever |
| `Tracking.MarkedRaisesPageCount` | userscripts.js:579-586 | on a first mark, the "X of Y watched" count rises by the id's occurrences on the page; otherwise it is unchanged |
| `Tracking.Tracker.Last7DaysStats` | userscripts.js:90-113 | exactly 7 rows, oldest first. Row `j` carries the key of day `today - 6 + j` and that date's stored counters, or zeros. The method has no `modifies` clause, so it changes nothing |
| `Ledger.Window` | userscripts.js:94-112 | the 7-day series has 7 rows, row `j` dated `today - 6 + j`, with missing days zero-filled |
| `Ledger.TotalVideos` | userscripts.js:124-127 | the week's `totalVideos` sum is zero exactly when no day has a video |
| `Ledger.TotalTime` | userscripts.js:128-131 | the week's `totalTime` sum is zero exactly when no day has watch time |
| `Ledger.TotalsBoundDays` | userscripts.js:124-131 | each day's `videosWatched` and `totalTimeWatched` are at most the week's `totalVideos` and `totalTime` |
| `Ledger.MaxVideos` | userscripts.js:150 | the bar scale is at least 1 and at least every day's count, and is either 1 or one of the days' counts |
| `Ledger.ScaleAtMostTotal` | userscripts.js:124-127 | the bar scale is 1 for an idle week, and otherwise at most `totalVideos` |
| `Ledger.TotalAtMostScaleTimesDays` | userscripts.js:124-127 | `totalVideos` is at most the scale times the number of days shown |
| `Ledger.BarWidth` | userscripts.js:191-192 | a bar width is non-negative, zero exactly for a day without videos, 100 exactly for a day at the scale, and at most 100 for a day within the scale |
| `Ledger.BarWidthsInRange` | userscripts.js:150-192 | every bar width `(videosWatched / maxVideos) * 100` lies in [0, 100], and in a week with any video some bar is full |
| `Ledger.TotalsAfterUpdate` | userscripts.js:124-131 | changing one row of the series changes both totals by exactly that row's difference |
| `Ledger.RecordVideoRaisesWeek` | userscripts.js:58-71 | counting a video today raises the week's `totalVideos` by exactly 1 and `totalTime` by its seconds, when today's key differs from the six earlier days' keys |
| `Patterns.FindFrom` | userscripts.js:252 | the scan returns the leftmost position at or after its start where `literal\d+` matches, or none when there is none |
| `Patterns.FirstMatch` | userscripts.js:252 | the first-match position is the earliest match, and there is none exactly when nothing matches anywhere |
| `Patterns.FirstMatchIs` | userscripts.js:252 | any earliest match position is the one the search finds |
| `Patterns.RunEnd` | userscripts.js:252 | the greedy `\d+` ends at the first non-digit, or at the end of the string |
| `Patterns.Captured` | userscripts.js:252-253 | the captured group is a maximal non-empty run of digits right after the literal |
| `Patterns.VideoId` | userscripts.js:251-254 | `getVideoId` is `null` exactly when no `/video/` is followed by a digit. Otherwise it is the maximal digit run after the first such `/video/` |
| `Tracking.Tracker.AddVideo` | userscripts.js:599-614 | an iframe adds a video with `null` duration exactly when its `src` yields an id. The watched set and storage are unchanged |
| `Tracking.Tracker.SetDuration` | userscripts.js:617-620 | a reported duration is stored on that video only |
| `Patterns.PageNumber` | userscripts.js:678-681 | the page number is absent exactly when no `pages/` is followed by a digit; otherwise it is `parseInt` of the digits captured at the first such place |
| `Patterns.Rewritten` | userscripts.js:683 | `url.replace` of the first match keeps the text before the group, puts the new digits where the captured run was, and keeps the text after that run |
| `Patterns.NextLessonUrl` | userscripts.js:677-689 | there is no next-lesson URL (the script alerts instead) exactly when the URL has no page number |
| `Patterns.RewriteKeepsFirstMatch` | userscripts.js:683 | replacing the first match's digits by other digits leaves the first match at the same place |
| `Patterns.RewriteCaptures` | userscripts.js:683 | after the replacement, the captured digits are exactly the new ones |
| `Patterns.SuccessorRewrite` | userscripts.js:678-683 | after the replacement by the successor's digits, the first match is at the same place and reads one higher. The text before the match and after its digits is unchanged |
| `Patterns.NextLessonAdvancesPage` | userscripts.js:677-686 | the rewritten URL's first page number is one higher and is written in decimal, as `${nextPageNum}` gives. It sits at the same place, with the text before it and after the old digits unchanged |
| `Playback.IndexFrom` | userscripts.js:523 | the scan from an index returns the first later index holding the rate, or -1 exactly when none does |
| `Playback.NextSpeed` | userscripts.js:521-525 | the next rate is always one of the four listed speeds, and an unlisted rate moves to the first, 1x |
| `Playback.IndexOf` | userscripts.js:523 | `indexOf` returns the first index holding the rate, or -1 exactly when the rate is not listed |
| `Playback.NextSpeedCycles` | userscripts.js:521-525 | the speeds cycle 1, 1.25, 1.5, 2 and back to 1. An unlisted rate (index -1) moves to 1, and the next rate is always one of the four |
| `Playback.FourPressesReturn` | userscripts.js:521-525 | four presses bring a listed rate back to itself |

## Left out

- DOM and UI are not modelled, because they hold no state the tracker depends on. This covers:
  - `createSidebar`, `createVideoItem` and `setActiveVideo`;
  - `updateDailyStatsDisplay`, and the markup and listeners of `showStatsWindow`, including its open/close toggle;
  - the checkmark and header text updates in `markVideoAsWatched`;
  - `getVideoTitle`.
- The Vimeo player is a foreign asynchronous library, so none of it is modelled:
  - SDK loading and player construction;
  - the `timeupdate` and picture-in-picture subscriptions;
  - the asynchronous commands `togglePlayPause`, `toggleMute`, `togglePiP`, `toggleFullscreen`, and the get/set half of `toggleSpeed`.

  That `markVideoAsWatched` is called only once `percent > 0.8` is the caller's business. `AddVideo` models only the id extraction and the push of lines 599-614.
- The clock and the locale are parameters. `dateKey` stands for the UTC date of `toISOString`.
- `Tracking.Tracker.Last7DaysStats` assumes that day `today - i` has the key `dateKey(today - i)`. The script subtracts days in local time and then takes the UTC date. Near midnight across a daylight-saving change, the two can differ, and that case is not captured.
- `Tracking.Tracker.Last7DaysStats`: the `dayName` field (`toLocaleDateString` weekday) is not modelled, because it is locale formatting.
- `Tracking.Tracker.Last7DaysStats` and `Tracking.Tracker.MarkVideoAsWatched` use a single day per call. The script reads the clock anew in each `getTodayKey` call and in each loop iteration, so a call that straddles midnight is not captured.
- Floating point is replaced by exact reals. So NaN durations, the float rounding of `seconds / 60` before `Math.floor`, and `avgPerDay.toFixed(1)` are not modelled.
- `Patterns.NextLessonUrl` computes `parseInt` exactly. Page numbers above 2^53 would lose precision in the script, and that is not modelled.
- Navigation is not modelled: the `window.location.href` assignment, `alert`, and the "course overview" scroll. `NextLessonUrl` models only the URL the button navigates to.
- Malformed storage is excluded: `Tracking.WellShaped` is required of the storage a tracker starts from. The script's unguarded `JSON.parse` would throw, or misbehave, on other contents of its two keys.
- Storage reads and writes are assumed to succeed. In the script, `localStorage.getItem` at start-up can throw when storage is disabled, and that stops the whole script. `localStorage.setItem` in `saveWatchedVideos` and `updateTodayStats` can throw, for example on a full quota, and nothing catches it. If `saveWatchedVideos` throws inside `markVideoAsWatched`, the id is already in the in-memory set, storage does not get it, and `updateTodayStats` never runs. The video is then not counted on that page load, and memory no longer matches storage. `Tracking.Tracker.MarkVideoAsWatched` always completes and keeps `Valid()`, so this failure path is not captured.
- JSON text is not modelled. Stored values are held already decoded, so the serialiser itself is not modelled.
- Concurrent writers are not modelled. Two tabs race on `localStorage`, and the last writer wins.
- `userscripts.meta.js` is not modelled: it is the userscript metadata header and has no logic.
