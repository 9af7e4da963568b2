# dixie leaderboard core, modelled in Dafny

dixie is a Next.js site that shows a monthly wager leaderboard. Admins can copy, download or post a text snapshot of it to Discord. This project models the parts of the code that compute something:

- **Snapshot route** (`GET /api/admin/snapshot`):
  - the admin-cookie gate;
  - the competition window: URL parameters, then environment variables, then the rolling window anchored on the 12th of the month, with a 28-day end derived from a start when no end is given;
  - the upstream query;
  - normalisation of upstream records with `??` fallbacks;
  - the stable sort by amount wagered;
  - ranking and the prize table.
- **Discord route** (`POST /api/admin/discord`):
  - `maskUsername`;
  - the message built with `+=`;
  - the webhook configuration check and every error path.
- **Admin page**:
  - `formatSnapshot`, the unmasked variant of the same text;
  - `getSnapshotUrl`;
  - the copy, download and push-to-Discord handlers, as a class whose fields are the page's React state.
- **Public leaderboard component**:
  - the one-second countdown updater;
  - the `||` transform of the affiliates answer;
  - the top-3 slice and the mock-data fallback.

JavaScript's date arithmetic is written out after ECMA-262 5.1, sections 15.9.1 and 15.9.4.3:

- day and year from a time value, month and date, MakeDay, `Date.UTC` with its 0..99 → 1900 year rule, and TimeClip;
- `parseInt(s, 10)` follows section 15.1.2.2: it skips the white space and line terminators of sections 7.2 and 7.3 (the Unicode space separators included), takes an optional sign, then the longest run of decimal digits;
- for clock readings from 1970 on, the rolling window is proved to start at 00:00:00 UTC on the 12th of the month that contains "now" (or of the month before), and to end at 23:59:59 UTC on the next 12th.

These are parameters or inputs rather than modelled:
- the clock (`nowMs`, and the `updated` text);
- locale formatting (`money`, `formatDate`, `formatTime`);
- what each `fetch` resolved to (`Fetched<...>`: a value, or the message of what was thrown);
- the environment variables (`Env`, webhook URL).

NaN is `None` of `Option<int>`. Strings are sequences of Dafny `char`s, each a Unicode scalar value, not the UTF-16 code units JavaScript counts. Amounts are integers.

The two text renderers differ only in:
- the standings heading;
- how a player is shown (masked in backticks with the raw amount, or as is with `$0.00` for a non-positive amount);
- the footer's final newline.

They are one function `SnapshotText.Render` with a `Style`. `DiscordRoute.BuildMessage` and `AdminPage.FormatSnapshot` are the two `+=` loops, each proved equal to its style of `Render`.

## What the code does

A few behaviours of the code are worth spelling out, because the model follows them:


- Consecutive rolling windows overlap by one day, which `DateRange.RollingWindowsOverlapOneDay` proves. A window ends at 23:59:59 on the 12th on which the next window starts.
- The upstream answer is used only when it is a bare JSON array (`Body.JsonOther` gives an empty leaderboard). No other array-valued keys are probed.
- The snapshot route wraps each amount's `??` chain in `Number(...)`. The model takes amounts as integers already, so that coercion is not modelled (see the `Number(...)` line under "## Left out").
- The Discord route fetches the snapshot route with the bare path and no query, so the posted message always covers the default window (environment or rolling), whatever window the admin page shows.
- A copy whose clipboard write throws leaves the clipboard as it was and reports the error.
- The public component has no cache, staleness or cooldown logic. It refreshes on a 15-minute interval and keeps only the top 3 entries.

## Model

| member | source | states |
|---|---|---|
| `Numbers.NatText` | app/api/admin/snapshot/route.ts:106-107 | the decimal text of a natural is non-empty and made of digits only |
| `Numbers.IntText` | app/api/admin/snapshot/route.ts:106-107 | `toString` of an integer is non-empty and starts with a minus sign or a digit |
| `Numbers.DigitRun` | app/api/admin/snapshot/route.ts:64 | parseInt's digit scan: a prefix of digits that stops at the first non-digit |
| `Numbers.TrimStart` | app/api/admin/snapshot/route.ts:64 | parseInt skips leading white space: the result is a suffix of the input, every character removed is white space, and the rest does not start with white space |
| `Numbers.ParseInt` | app/api/admin/snapshot/route.ts:64-66 | parseInt gives a number exactly when, after the white space, the text opens with a digit or with a sign and a digit; a negative number only after a minus sign |
| `Numbers.NatTextValue` | app/api/admin/snapshot/route.ts:106-107 | the digits written for n have the value n |
| `Numbers.DigitRunPrefix` | app/api/admin/snapshot/route.ts:64 | the digit scan of digits followed by a non-digit stops right after the digits |
| `Numbers.ParseIntPrefix` | app/api/admin/snapshot/route.ts:64-66 | parseInt reads back the integer String(n) wrote, whatever non-digit text follows it |
| `Numbers.ParseIntText` | app/api/admin/snapshot/route.ts:64-66 | `parseInt(String(n), 10)` is n for every integer of the model (the bounds written into a query read back unchanged); JavaScript agrees for magnitudes up to 2^53 only, see "## Left out" |
| `Numbers.ParseIntNoDigits` | app/api/admin/snapshot/route.ts:64 | a string that opens with no digit, sign or white space parses to NaN |
| `Numbers.IntTextInjective` | app/api/admin/snapshot/route.ts:106-107 | different integers are written as different texts |
| `Calendar.DayFromYearNext` | app/api/admin/snapshot/route.ts:9 | 1970 starts at day 0 and consecutive years are 365 or 366 days apart, by the Gregorian leap rule |
| `Calendar.YearFromDay` | app/api/admin/snapshot/route.ts:9 | getUTCFullYear: the year whose first day is at or before the day and whose next year starts after it |
| `Calendar.YearUnique` | app/api/admin/snapshot/route.ts:9 | that year is the only one that contains the day |
| `Calendar.DaysInMonth` | app/api/admin/snapshot/route.ts:10-11 | a month has 28 to 31 days |
| `Calendar.MonthInYear` | app/api/admin/snapshot/route.ts:10 | getUTCMonth: the month whose span within the year contains the day |
| `Calendar.CivilFromDay` | app/api/admin/snapshot/route.ts:9-11 | a day number has a valid year, month and date that MakeDay maps back to it, in 1970 or later for non-negative days |
| `Calendar.CivilOfMakeDay` | app/api/admin/snapshot/route.ts:70-75 | every valid calendar date comes back unchanged from MakeDay and then the year/month/date getters |
| `Calendar.MakeDayFormula` | app/api/admin/snapshot/route.ts:17-25 | MakeDay over a month count equals the day-from-year plus day-in-year form of section 15.9.1.12 of ECMA-262 5.1, with ym = year + floor(month / 12) and mn = month modulo 12 |
| `Calendar.MakeDayRollsOver` | app/api/admin/snapshot/route.ts:21-23 | the month -1 and month 12 that `Date.UTC(y, m - 1, 12)` and `Date.UTC(y, m + 1, 12)` pass in January and December fall on December of the year before and on January of the year after |
| `Calendar.DateUtc` | app/api/admin/snapshot/route.ts:16-23 | `Date.UTC` gives midnight of a day within the time range, and for a valid date outside years 0..99 the getUTC* accessors give that date back |
| `Calendar.UtcDate` | app/api/admin/snapshot/route.ts:16 | the UTC year/month/date of a time value form a valid date of that day (1970 or later from the epoch on) |
| `Calendar.DayBounds` | app/api/admin/snapshot/route.ts:5 | a time value lies within its day: day·86400000 ≤ t < (day+1)·86400000 |
| `Calendar.MidnightOfDate` | app/api/admin/snapshot/route.ts:70-75 | `Date.UTC` of a time's own UTC date is midnight of its day (years outside 0..99) |
| `Calendar.Pad2` | app/api/admin/snapshot/route.ts:10-11 | `padStart(2, "0")` of a number up to 99 has two characters |
| `Calendar.FormatDateYYYYMMDD` | app/api/admin/snapshot/route.ts:8-13 | an invalid Date gives "NaN-NaN-NaN"; otherwise the text has a dash before each two-digit field, both characters of each field are digits (`padStart(2, "0")`), the text before the month is exactly String(year), and parseInt reads the UTC year from the whole text, the 1-based month and the day from the fields |
| `Calendar.ParsePad2` | app/api/admin/snapshot/route.ts:10-11 | parseInt reads back a padded two-digit field |
| `Calendar.FieldsOfParts` | app/api/admin/snapshot/route.ts:12 | the three fields of `${year}-${month}-${day}` read back with parseInt, whatever the year |
| `Calendar.FormatCivilRoundTrip` | app/api/admin/snapshot/route.ts:8-13 | YYYY-MM-DD of a date with a four-digit year is 10 characters and reads back as the same date |
| `Calendar.FormatDateRoundTrip` | app/api/admin/snapshot/route.ts:8-13 | for a four-digit UTC year, formatDateYYYYMMDD of a time value is 10 characters and reads back as its UTC date |
| `Calendar.FormatDateShortYear` | app/api/admin/snapshot/route.ts:8-13 | the year is not padded: a three-digit year gives a 9-character text |
| `DateRange.UnixSeconds` | app/api/admin/snapshot/route.ts:4-6 | dateToUnixTimestamp is the floor of ms/1000: NaN stays NaN, otherwise s·1000 ≤ t < s·1000+1000 |
| `DateRange.SetEndOfDay` | app/api/admin/snapshot/route.ts:26 | setUTCHours(23, 59, 59, 999) gives the last millisecond of the same UTC day, and is NaN only beyond the time range |
| `DateRange.Rolling12th` | app/api/admin/snapshot/route.ts:15-33 | startAt and endAt are the YYYY-MM-DD texts of the from and to bounds, "NaN-NaN-NaN" for NaN |
| `DateRange.SameDateInSeconds` | app/api/admin/snapshot/route.ts:28-31 | a Date and the Date of its Unix second format to the same YYYY-MM-DD |
| `DateRange.RollingAnchors` | app/api/admin/snapshot/route.ts:16-24 | the three `Date.UTC(…, 12)` calls give midnight of the 12th of this, the previous and the next month |
| `DateRange.ReachedAnchorDay` | app/api/admin/snapshot/route.ts:19 | `now >= currentMonth12th` holds exactly when today is the 12th or later, and picks the window's month |
| `DateRange.RollingStartDate` | app/api/admin/snapshot/route.ts:19-25 | the window starts at midnight of the 12th of its month |
| `DateRange.RollingEndDate` | app/api/admin/snapshot/route.ts:21-26 | the window ends at 23:59:59.999 on the 12th of the following month |
| `DateRange.TwelfthOfMonth` | app/api/admin/snapshot/route.ts:16 | midnight of the 12th of month k reads back as year k/12, month k%12, date 12 |
| `DateRange.WindowHoldsNow` | app/api/admin/snapshot/route.ts:15-25 | today lies between the window's two anchor days |
| `DateRange.SecondsWithinWindow` | app/api/admin/snapshot/route.ts:30-31 | a time between the anchor days lies within the window's bounds in seconds |
| `DateRange.RollingShape` | app/api/admin/snapshot/route.ts:15-32 | the rolling bounds are the 12th at 00:00:00 and the next 12th at 23:59:59, and "now" lies within them |
| `DateRange.RollingStartsOnTheTwelfth` | app/api/admin/snapshot/route.ts:19-20 | at midnight of the 12th the new window starts exactly now |
| `DateRange.RollingWindowsOverlapOneDay` | app/api/admin/snapshot/route.ts:21-26 | a window's end and the next window's start overlap by one day less a second |
| `DateRange.RollingStartAtIsTwelfth` | app/api/admin/snapshot/route.ts:28 | startAt ends in "-12" |
| `DateRange.DerivedEnd` | app/api/admin/snapshot/route.ts:68-77 | a derived end exists only for a start, and is always the last second of a UTC day |
| `DateRange.LastSecondOfLastDay` | app/api/admin/snapshot/route.ts:76-77 | 28 days after a midnight, less a millisecond, falls on the last second of a day |
| `DateRange.DerivedEndFrom` | app/api/admin/snapshot/route.ts:68-77 | the derived end is (start of the start's UTC day + 28 days − 1 ms) in whole seconds |
| `DateRange.DerivedEndIsTwentyEightDays` | app/api/admin/snapshot/route.ts:68-77 | for years outside 0..99 the derived end is the last second of the 28th day from the start's day |
| `DateRange.DerivedEndTwoDigitYear` | app/api/admin/snapshot/route.ts:70-75 | for a start in years 0..99, `Date.UTC` moves the start of day to 1900..1999, so the end lands over 1800 years later |
| `DateRange.ResolveRange` | app/api/admin/snapshot/route.ts:62-98 | without a from parameter or a configured start, the window holds now (from 1970 on) and ends on the last second of a day; a derived end is always the last second of a day |
| `DateRange.RollingBounds` | app/api/admin/snapshot/route.ts:95-98 | the rolling bounds exist, hold now and end on the last second of a day |
| `DateRange.FromParamWins` | app/api/admin/snapshot/route.ts:63-64 | a truthy from parameter decides the window; environment and clock are not read |
| `DateRange.EnvBeatsRolling` | app/api/admin/snapshot/route.ts:79-80 | without a from parameter, a configured start wins and the to parameter is ignored |
| `DateRange.RollingFallback` | app/api/admin/snapshot/route.ts:95-98 | with neither, the rolling window is used |
| `DateRange.ExplicitBoundsVerbatim` | app/api/admin/snapshot/route.ts:63-66 | integer from/to parameters come through unchanged (in JavaScript, for magnitudes up to 2^53; see "## Left out") |
| `DateRange.FromParamDerivedEnd` | app/api/admin/snapshot/route.ts:65-78 | a from parameter without a to gets the 28-day end |
| `DateRange.UrlAndEnvAgree` | app/api/admin/snapshot/route.ts:63-94 | the URL branch and the environment branch resolve a start and an optional end identically |
| `Ranking.PrizeForRank` | app/api/admin/snapshot/route.ts:125-128 | a prize is never negative and is positive exactly for ranks 1 to 10 |
| `Ranking.PrizePoolTotal` | app/api/admin/snapshot/route.ts:126 | the prizes of the first n ranks, n ≥ 10, add up to 4000 |
| `Ranking.PrizeNonIncreasing` | app/api/admin/snapshot/route.ts:126 | a better rank never has a smaller prize |
| `Ranking.ResponsePrizesAgree` | app/api/admin/snapshot/route.ts:176-187 | the prizes object of the answer has keys 1..10 and agrees with prizeForRank |
| `Ranking.NormalizeAt` | app/api/admin/snapshot/route.ts:131-136 | each field comes from the first present key of its `??` chain (user_name, username, name; total_wager_usd, wagered_amount, wagered, totalWagered), and from the position (index+1, `Player<index+1>`, 0) only when all of them are missing |
| `Ranking.Normalize` | app/api/admin/snapshot/route.ts:131-136 | one entry per upstream record |
| `Ranking.Entries` | app/api/admin/snapshot/route.ts:122 | a body that is not an array gives no entries |
| `Ranking.NormalizeFallbacks` | app/api/admin/snapshot/route.ts:131-136 | for each record, the first present key of each `??` chain wins, even when its value is "" or 0, stated step by step down the chain; the fallbacks are index+1, `Player<index+1>` and 0 |
| `Ranking.Insert` | app/api/admin/snapshot/route.ts:138 | insertion adds exactly the one entry |
| `Ranking.SortByWagered` | app/api/admin/snapshot/route.ts:138 | the sort is a permutation |
| `Ranking.InsertSorted` | app/api/admin/snapshot/route.ts:138 | inserting into a descending list keeps it descending |
| `Ranking.SortSorted` | app/api/admin/snapshot/route.ts:138 | the result is in descending order of amount |
| `Ranking.InsertWithWagered` | app/api/admin/snapshot/route.ts:138 | insertion puts a new entry before the earlier entries of equal amount |
| `Ranking.SortStable` | app/api/admin/snapshot/route.ts:138 | entries with equal amounts keep their input order (Array.prototype.sort is stable) |
| `Ranking.WithWageredOccurs` | app/api/admin/snapshot/route.ts:138 | an amount has entries exactly when some entry has that amount |
| `Ranking.OrderedByAmountUnique` | app/api/admin/snapshot/route.ts:138 | two descending lists with the same entries of each amount, in the same order, are equal |
| `Ranking.SortIsTheStableSort` | app/api/admin/snapshot/route.ts:138 | any descending, stable rearrangement of the input is the result of the sort |
| `Ranking.RankAll` | app/api/admin/snapshot/route.ts:139-143 | ranking keeps the length |
| `Ranking.Leaderboard` | app/api/admin/snapshot/route.ts:121-143 | one standing per record, in non-increasing order of amount, with rank = place+1 and that rank's prize |
| `Ranking.LeaderboardShape` | app/api/admin/snapshot/route.ts:122-143 | the leaderboard is the sorted entries, with rank = place+1 and prize = prizeForRank(rank), in descending order |
| `Ranking.RankIgnoresUpstreamRank` | app/api/admin/snapshot/route.ts:135-143 | the upstream rank field has no effect on the ranked result |
| `Ranking.PrizesByPlace` | app/api/admin/snapshot/route.ts:139-143 | exactly the first ten places win a prize |
| `SnapshotText.UpperChar` | app/api/admin/discord/route.ts:10 | toUpperCase of a character: no lower-case ASCII letter is left; a..z become the capital 32 code points below; every other character is kept |
| `SnapshotText.Upper` | app/api/admin/discord/route.ts:10 | toUpperCase of a string, character by character, keeping the length |
| `SnapshotText.Stars` | app/api/admin/discord/route.ts:12 | `"*".repeat(n)`: n asterisks |
| `SnapshotText.MaskUsername` | app/api/admin/discord/route.ts:4-14 | keeps the length; leaves the placeholder and names of up to 4 characters alone; otherwise the first two are upper-cased, the last two kept, and every other character is '*' |
| `SnapshotText.UpperIdempotent` | app/api/admin/discord/route.ts:10 | upper-casing twice is upper-casing once |
| `SnapshotText.MaskIdempotent` | app/api/admin/discord/route.ts:4-14 | masking a masked name changes nothing |
| `SnapshotText.MaskHidesMiddle` | app/api/admin/discord/route.ts:4-14 | names that agree in length, first two characters up to case and last two characters mask alike |
| `SnapshotText.Medal` | app/api/admin/discord/route.ts:59 | a medal is given exactly for ranks 1 to 3 |
| `SnapshotText.PrizeSuffix` | app/admin/page.tsx:101 | the prize suffix is present exactly when the prize is positive |
| `SnapshotText.AdminAmount` | app/admin/page.tsx:102 | a non-positive amount is written `$0.00` |
| `SnapshotText.Shown` | app/admin/page.tsx:96 | the first min(n, 20) entries, in order |
| `SnapshotText.Row` | app/admin/page.tsx:99-107 | every standing line opens with its rank text (a medal exactly for ranks 1 to 3) and ends with its prize suffix and a newline |
| `SnapshotText.Render` | app/admin/page.tsx:77-114 | the snapshot text opens with the header of its style and ends with the footer |
| `SnapshotText.PlaceholderIgnoresName` | app/admin/page.tsx:104-105 | a row with amount 0 reads the same whatever the username |
| `SnapshotText.PlaceholderRowsAgree` | app/api/admin/discord/route.ts:62-63 | placeholder lines are identical in the Discord message and the admin copy |
| `SnapshotText.DiscordShowsOnlyMask` | app/api/admin/discord/route.ts:64-68 | the Discord line depends on the username only through its mask |
| `SnapshotText.AdminShowsName` | app/admin/page.tsx:99-107 | a non-placeholder admin line opens with the rank text, the username unmasked, " - " and the amount (`$0.00` unless positive) |
| `SnapshotText.DiscordShowsMask` | app/api/admin/discord/route.ts:59-68 | a non-placeholder Discord line opens with the rank text, the masked username in backticks, " - $" and the amount |
| `SnapshotText.PlaceholderShown` | app/api/admin/discord/route.ts:62-63 | a row whose username is "Awaiting player" or whose amount is 0 opens, in either style, with the rank text and " *Awaiting player*" |
| `SnapshotText.RenderShowsTop20` | app/api/admin/discord/route.ts:58 | entries after the 20th never change the text |
| `SnapshotText.RowsSnoc` | app/admin/page.tsx:98-109 | the lines of one more player are the earlier lines followed by that player's line |
| `SnapshotRoute.BoundText` | app/api/admin/snapshot/route.ts:106-107 | a bound written into the upstream query parses back to itself (in JavaScript, for magnitudes up to 2^53; see "## Left out") |
| `SnapshotRoute.Get` | app/api/admin/snapshot/route.ts:35-195 | the upstream is queried exactly with the admin cookie; the answer is 200 exactly with the cookie and an ok JSON upstream reply, and only a 200 carries the snapshot |
| `SnapshotRoute.GetUnauthorized` | app/api/admin/snapshot/route.ts:39-46 | without the admin cookie the answer is 401 "Unauthorized" and nothing is fetched |
| `SnapshotRoute.GetQueriesResolvedWindow` | app/api/admin/snapshot/route.ts:48-107 | with the cookie, the upstream query carries the resolved window, which reads back unchanged (in JavaScript, for bounds of magnitude up to 2^53; see "## Left out") |
| `SnapshotRoute.GetUpstreamFailure` | app/api/admin/snapshot/route.ts:114-119 | a non-2xx upstream status is passed on, with the status in the message |
| `SnapshotRoute.GetThrows` | app/api/admin/snapshot/route.ts:189-195 | a fetch that throws, or a body that is not JSON, gives 500 "Failed to fetch snapshot" |
| `SnapshotRoute.GetSuccess` | app/api/admin/snapshot/route.ts:121-188 | a success carries the ranked leaderboard (empty for a non-array), the resolved bounds and a prize table that agrees with prizeForRank |
| `DiscordRoute.BuildMessage` | app/api/admin/discord/route.ts:43-72 | the `+=` loop builds exactly the Discord style of the snapshot text |
| `DiscordRoute.MessageHeader` | app/api/admin/discord/route.ts:43-56 | the header lines are the title, the period, the pool of ranks 1..10 in order, and the heading |
| `DiscordRoute.StandingLine` | app/api/admin/discord/route.ts:59-69 | one iteration appends the player's Discord row |
| `DiscordRoute.Post` | app/api/admin/discord/route.ts:16-95 | 401 without the cookie; with it, the snapshot is fetched at the request's origin with the bare path and the forwarded cookie; each error answer; a post happens exactly when the snapshot is ok and a webhook is configured, and it carries the rendered text; the webhook status decides the answer |
| `DiscordRoute.PostUsesDefaultWindow` | app/api/admin/discord/route.ts:27-33 | the snapshot request passes the route's gate and gives the answer of a request with no from or to; without a configured start the window is the rolling one |
| `AdminPage.FormatSnapshot` | app/admin/page.tsx:77-115 | the `+=` loop builds exactly the admin style of the snapshot text |
| `AdminPage.OutputHeader` | app/admin/page.tsx:80-93 | the header lines, with the prize pool of ranks 1..10 in order |
| `AdminPage.PlayerLine` | app/admin/page.tsx:99-108 | one iteration appends the player's admin row |
| `Urls.Param` | app/admin/page.tsx:120-122 | URLSearchParams.get finds a value exactly when a parameter of that name exists, and it is the value of the first such parameter |
| `AdminPage.GetSnapshotUrl` | app/admin/page.tsx:117-134 | the path is always the snapshot route's; from is forwarded only in the browser and when it is truthy; to only with it and when truthy |
| `AdminPage.SnapshotUrlKeepsWindow` | app/admin/page.tsx:117-134 | in the browser, the snapshot route resolves the same window from the URL as from the page's own parameters |
| `AdminPage.ErrorText` | app/admin/page.tsx:156 | `err.message || fallback`: a non-empty message is kept, an empty one gives the fallback, and a non-empty fallback never yields an empty text |
| `AdminPage.DiscordFailure` | app/admin/page.tsx:202-205 | a thrown fetch gives its message; a non-ok answer gives the route's error when it is non-empty, and "Failed to send" otherwise |
| `AdminPage.AdminPanel.constructor` | app/admin/page.tsx:10-15 | the initial state: no error, nothing loading or successful |
| `AdminPage.AdminPanel.CopySnapshot` | app/admin/page.tsx:136-160 | fetches getSnapshotUrl; success writes the admin text to the clipboard and sets the flag; a failed fetch or a failed clipboard write sets the right message and leaves the clipboard as it was; loading ends false |
| `AdminPage.AdminPanel.DownloadSnapshot` | app/admin/page.tsx:162-194 | success saves the admin text; a failure keeps the earlier success flag (it is not cleared first) |
| `AdminPage.AdminPanel.PushToDiscord` | app/admin/page.tsx:196-213 | success sets the flag; a failure shows the route's error or a fallback; loading ends false |
| `ClientLeaderboard.Tick` | components/slot-streamer-leaderboard.tsx:79-90 | with no positive field the state is returned unchanged; days drop by at most one |
| `ClientLeaderboard.TickTakesOneSecond` | components/slot-streamer-leaderboard.tsx:80-88 | with no negative field and time left, a tick takes exactly one second off |
| `ClientLeaderboard.TickKeepsBounds` | components/slot-streamer-leaderboard.tsx:80-89 | a tick keeps hours ≤ 23, minutes and seconds ≤ 59 and no negative field; zero and only zero is a fixed point |
| `ClientLeaderboard.CountdownRunsDown` | components/slot-streamer-leaderboard.tsx:78-91 | after n ticks the time left is total − n, or 0 |
| `ClientLeaderboard.CountdownReachesZero` | components/slot-streamer-leaderboard.tsx:78-91 | after exactly `total` ticks the countdown shows 0d 0h 0m 0s |
| `ClientLeaderboard.Or` | components/slot-streamer-leaderboard.tsx:53-56 | JavaScript's logical or: the result is one of the operands, a when a is truthy, and it is truthy exactly when either operand is |
| `ClientLeaderboard.ToEntry` | components/slot-streamer-leaderboard.tsx:52-57 | rank = index+1; id and username are always truthy, with fallbacks index+1 and `Player<index+1>`; a falsy 0 or "" falls through to the next field: username to name, wagered to totalWagered, prize to reward, and the last to its default (0 for wagered and prize) |
| `ClientLeaderboard.Transform` | components/slot-streamer-leaderboard.tsx:51-58 | no leaderboard gives []; a non-array throws; an array maps entry by entry unless an item is null |
| `ClientLeaderboard.Top3` | components/slot-streamer-leaderboard.tsx:60 | `slice(0, 3)`: a prefix of the list with min(n, 3) entries |
| `ClientLeaderboard.Top3IgnoresRest` | components/slot-streamer-leaderboard.tsx:60 | entries after the third never change the slice |
| `ClientLeaderboard.Loaded` | components/slot-streamer-leaderboard.tsx:32-60 | entries are loaded only from an ok answer with JSON; they are then exactly the first three of the transformed array (`Top3(Transform(board))`), and a transform that throws makes the load fail; no leaderboard gives an empty list, and a non-array leaderboard a failure |
| `ClientLeaderboard.LoadedRanks` | components/slot-streamer-leaderboard.tsx:51-60 | a successful load shows at most three entries ranked 1, 2, 3 |
| `ClientLeaderboard.MockRanks` | components/slot-streamer-leaderboard.tsx:14-18 | the mock list has three entries ranked 1 to 3 |
| `ClientLeaderboard.LeaderboardView.constructor` | components/slot-streamer-leaderboard.tsx:21-29 | nothing loaded, loading, no error, 19d 3h 19m 42s |
| `ClientLeaderboard.LeaderboardView.FetchLeaderboard` | components/slot-streamer-leaderboard.tsx:32-68 | success shows the top three; any failure shows the mock list and "Failed to load leaderboard data"; loading ends false |
| `ClientLeaderboard.LeaderboardView.TickCountdown` | components/slot-streamer-leaderboard.tsx:78-91 | one interval tick applies the updater and keeps the countdown bounded; nothing else changes |

## Left out

- Locale formatting is left out: `toLocaleString` of amounts and of the update time, and `toLocaleDateString`/`toLocaleTimeString` of the window. These are the parameters `money`, `updated`, `formatDate` and `formatTime`. An invalid date reaches them as `None`.
- `Number(...)` coercion and floating point are left out. Amounts are integers and upstream amounts are numbers already. A string amount, or NaN sorting, is not modelled.
- Numbers.ParseIntText: bounds are unbounded integers here, while `parseInt` returns a double and `String` writes one. Beyond 2^53 the source rounds (`from=12345678901234567891` is sent as `12345678901234567000`), and from 10^21 on it writes exponent form (`1e+22`, which parseInt reads back as 1). The exact round trip is promised only for integers of the model.
- DateRange.ExplicitBoundsVerbatim: a from/to parameter beyond 2^53 is rounded to a double by the source, so "verbatim" holds in JavaScript only up to 2^53 (see the `Numbers.ParseIntText` line).
- SnapshotRoute.BoundText: `String` of a double beyond 2^53 is rounded, and from 10^21 on it is in exponent form, so the read-back holds in JavaScript only up to 2^53 (see the `Numbers.ParseIntText` line).
- SnapshotRoute.GetQueriesResolvedWindow: the upstream query carries the bounds as `BoundText` writes them, with the same limit of 2^53 in JavaScript.
- The upstream URL's base and `api_key` (app/api/admin/snapshot/route.ts:101-105) are left out. Only its from/to query is modelled.
- Request and response plumbing is left out: `cookies()`, `new URL(request.url)`, `NextResponse.json`, `console.error`, and the headers of every fetch.
- A `null` record in the upstream array is not modelled. On it, `entry.user_id` throws and the route answers 500.
- The webhook request itself (its JSON body) is left out. Post reports the message it would send.
- The admin page's `checkAuth`, `handleLogin` and `handleLogout`, and the login route, are left out. They are credential and cookie plumbing.
- The 3-second `setTimeout` that clears a success flag is left out.
- The download's blob, anchor element and `toISOString` file name are left out. A download is modelled as the saved text.
- In the public component, the intervals themselves (15-minute refresh, 1-second tick) are left out. The model covers what one run of each callback does.
- React rendering and the decorative background component are left out.
- `SnapshotText.UpperChar`: upper-cases ASCII letters only. It does not model JavaScript's full Unicode case mapping, because that needs the Unicode tables.
- `SnapshotText.MaskUsername`: lengths are counted in Unicode scalar values, not in the UTF-16 code units of `username.length`, and upper-casing is one character to one. So a name with characters outside the Basic Multilingual Plane is masked at other positions than in JavaScript, and one whose first two characters expand when upper-cased ("ßabcd" gives "SSA*cd" in JavaScript) comes out one character shorter here.
- `formatSnapshot` and the Discord message reading fields of malformed snapshot JSON (a missing `dateRange` throws) is not modelled. The snapshot is typed.
