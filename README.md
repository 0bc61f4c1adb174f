# car-number: a Dafny model of the plate scraper's decision logic

`car-number` watches the licence-plate auction of the vehicle registry. It has four parts:

- a scheduled scraper (`fetchLatestPlates`) opens the result pages in a shared headless browser, solves the CAPTCHA with an OCR service, reads the last plate shown and keeps a short log of the plates it has seen;
- a notifier (`scheduleSendLineNotify`) reports how far that plate is from a target plate through LINE, without sending the same message twice;
- a batch query (`queryPlate`) looks up a list of plates and writes the results into two streams of JSON files of 500 records each;
- small helpers format dates, generate the plate list and rewrite the list of plates that were not found.

This project models the deterministic layer around the browser and the network, one Dafny module per source file:

| module | source file | form |
|---|---|---|
| `FetchLatestPlates` | `src/fetchLatestPlates.ts` | class `PlateScraper` for the shared browser, its usage counter and the plate log; methods for the retry loops |
| `Scheduler` | `src/utils/scheduler.ts` | functions for the clock arithmetic; class `WindowScheduler` for the timer handle |
| `RecognizeCaptcha` | `src/utils/recognizeCaptcha.ts` | functions over an abstract OCR reply |
| `ScheduleSendLineNotify` | `src/scheduleSendLineNotify.ts` | functions for the message; class `Notifier` for the stored last message |
| `QueryPlate` | `src/queryPlate.ts` | `queryPlate` as a function; `main`'s loop as a method over a map of files |
| `FormatDate` | `src/utils/formatDate.ts` | functions |
| `GeneratePlateNumbers` | `src/utils/generatePlateNumbers.ts` | a method with a loop, proved against a function |
| `FixNotfoundAll` | `scripts/fix_notfound_all.py` | functions for extraction and sorting; methods for the line loop |

Three helper modules support them:

- `Wrappers` holds `Option` and `Result`.
- `Decimal` renders and reads back decimal digits. It covers JavaScript `String(n)` and `padStart`, and Python `int()` and `:04d`.
- `Text` holds join, trim, substring search, ASCII case mapping and `indexOf`.

The browser, the OCR service, LINE, the file system and the clock are inputs:

- A navigation is a sequence of per-attempt outcomes, and so is each CAPTCHA attempt.
- The result table is a sequence of cells.
- A JSON file is its parsed value, or a marker that reading or parsing failed.
- The time is a set of integer fields.
- Timers are effects recorded in order. The environment fires them by calling the matching method.

Where the comments and the code disagree, the model follows the code:

- The retry after a timeout waits 15000 ms. The comments at `src/fetchLatestPlates.ts:273,276` and the log message at `src/fetchLatestPlates.ts:282` say five minutes and one minute.
- The scraper runs every 15000 ms. The comment at `src/fetchLatestPlates.ts:289` says every thirty seconds.
- The notifier runs from 09:00 to 23:59, every minute. The comment at `src/scheduleSendLineNotify.ts:42` says 09:00-18:00, hourly.
- The plate list runs from 896 to 9999 with four digits. The doc comment at `src/utils/generatePlateNumbers.ts:2` says `CAT-00001`..`CAT-99999`.

The model also keeps these behaviours of the code:

- The navigation backoff waits 2000 ms times the attempt number.
- Outside the window the next start is `startHour:00`, the same day before the window and the next day after it.
- The interval fires the task without waiting for the previous run.

## Model

| member | source | states |
|---|---|---|
| Decimal.NatToString | src/utils/formatDate.ts:4 | the decimal rendering of a number is non-empty, all digits, and starts with '0' only for zero |
| Decimal.NatToStringValue | src/utils/formatDate.ts:4 | the decimal rendering of `n` reads back to `n` |
| Decimal.NatToStringInjective | src/queryPlate.ts:99 | different numbers render to different digit strings |
| Decimal.PadStart | src/utils/generatePlateNumbers.ts:7 | `padStart(width, c)` keeps the string as its suffix, fills only the front with `c`, and has length max(len, width) |
| Decimal.ZeroPadValue | src/utils/generatePlateNumbers.ts:7 | zero padding never changes the number the digits denote |
| Decimal.ZeroPadWidth | src/utils/generatePlateNumbers.ts:7 | a number below 10^k zero-padded to k digits has exactly k characters |
| Text.TrimStart | src/scheduleSendLineNotify.ts:26 | the result is a suffix of the input, starts with no white space, and only white space was removed |
| Text.TrimEnd | src/scheduleSendLineNotify.ts:26 | the result is a prefix of the input, ends with no white space, and only white space was removed |
| Text.Trim | src/scheduleSendLineNotify.ts:26 | `trim()` is `TrimEnd` after `TrimStart`; the result neither starts nor ends with white space |
| Text.TrimUnchanged | src/scheduleSendLineNotify.ts:26 | a string that neither starts nor ends with white space is its own trim |
| Text.ToUpper | src/utils/recognizeCaptcha.ts:83-86 | upper-casing keeps the length and maps every character by the ASCII case rule |
| Text.IndexOf | src/scheduleSendLineNotify.ts:12-13 | `indexOf` is -1 exactly when the element is absent; otherwise it gives the first position holding it |
| FormatDate.Pad | src/utils/formatDate.ts:4 | `pad` yields digits, at least two of them; numbers of two or more digits are unchanged; below 100 the two digits read back to the number |
| FormatDate.FormatDate | src/utils/formatDate.ts:3-12 | the definition: the year, then the padded month (getMonth() + 1), day, hours, minutes and seconds with `/`, ` ` and `:` between them; `FormatDateLayout` states its layout and read-back |
| FormatDate.FormatDateLayout | src/utils/formatDate.ts:3-12 | for a four-digit year and in-range fields the output is 19 characters in the layout `YYYY/MM/DD hh:mm:ss`; each field reads back to its value, and the month (getMonth()+1) lies in 1..12 |
| GeneratePlateNumbers.GeneratePlateNumbers | src/utils/generatePlateNumbers.ts:4-12 | the loop with `continue` returns exactly the plates of the numbers 896..9999 that have no '4', in order |
| GeneratePlateNumbers.GeneratedPlates | src/utils/generatePlateNumbers.ts:6-10 | every entry is `CAT-` plus four digits without a '4' and a number in 896..9999; every such number is present; entries strictly increase, so each appears once |
| GeneratePlateNumbers.FirstPlate | src/utils/generatePlateNumbers.ts:6-9 | the list starts with `CAT-0896`, the zero-padded first number |
| GeneratePlateNumbers.PlateReadsBack | src/utils/generatePlateNumbers.ts:7-9 | the plate of a four-digit number is well formed and carries that number |
| GeneratePlateNumbers.KeptAreAllowed | src/utils/generatePlateNumbers.ts:8 | the filter keeps only members of its input without a '4' |
| GeneratePlateNumbers.AllowedAreKept | src/utils/generatePlateNumbers.ts:8-9 | the filter keeps every member of its input without a '4' |
| GeneratePlateNumbers.KeptIncreasing | src/utils/generatePlateNumbers.ts:6-9 | filtering an increasing range leaves it strictly increasing |
| FixNotfoundAll.DigitRun | scripts/fix_notfound_all.py:7 | `\d{1,4}` takes the longest run of at most four digits at the front |
| FixNotfoundAll.Extract | scripts/fix_notfound_all.py:7 | every extracted number is below 10000 |
| FixNotfoundAll.ExtractFindsEveryMarker | scripts/fix_notfound_all.py:7 | for every `CAT-` followed by a digit, the number of its digit group (up to four digits) is among the extracted numbers |
| FixNotfoundAll.ExtractComesFromMarker | scripts/fix_notfound_all.py:7 | every extracted number is the value of the digit group after some `CAT-` that is followed by a digit, so nothing else is extracted |
| FixNotfoundAll.MatchHidesNoMarker | scripts/fix_notfound_all.py:7 | a match at the front cannot swallow a later `CAT-` marker |
| FixNotfoundAll.InsertUnique | scripts/fix_notfound_all.py:8 | inserting into a strictly increasing sequence keeps it strictly increasing and adds exactly that element |
| FixNotfoundAll.SortedUnique | scripts/fix_notfound_all.py:8 | `sorted(set(...))` is strictly increasing and holds exactly the input's elements |
| FixNotfoundAll.CountIsDistinctNumbers | scripts/fix_notfound_all.py:8-29 | the count printed equals the number of distinct extracted numbers |
| FixNotfoundAll.IncreasingCount | scripts/fix_notfound_all.py:8 | a strictly increasing sequence has no duplicates |
| FixNotfoundAll.FormatLines | scripts/fix_notfound_all.py:9-16 | one line per chunk of ten; line j is two spaces and the quoted items of chunk j joined by ", "; every line but the last ends with ',' |
| FixNotfoundAll.ChunksCover | scripts/fix_notfound_all.py:10-11 | chunk j is the slice starting at 10 j; every chunk but the last has ten numbers and the last has one to ten |
| FixNotfoundAll.LinesCovered | scripts/fix_notfound_all.py:10 | `range(0, n, 10)` gives ceil(n/10) lines, and line j exists exactly when 10 j < n |
| FixNotfoundAll.ItemsEndWithQuote | scripts/fix_notfound_all.py:12 | a non-empty line of items ends with a closing quote |
| FixNotfoundAll.RStripComma | scripts/fix_notfound_all.py:16 | `rstrip(',')` removes only a suffix |
| FixNotfoundAll.StripOneComma | scripts/fix_notfound_all.py:13-16 | stripping the last line's commas removes exactly the one comma the loop appended |
| FixNotfoundAll.Document | scripts/fix_notfound_all.py:17 | the definition: `[` and a newline, the lines joined by newlines, then a newline, `]` and a newline; `FixNotfound` and `EmptyDocument` state what it holds |
| FixNotfoundAll.FixNotfound | scripts/fix_notfound_all.py:7-29 | the output is `[\n`, the formatted lines of the sorted distinct numbers joined by newlines, and `\n]\n`; the count is the number of distinct numbers |
| FixNotfoundAll.EmptyDocument | scripts/fix_notfound_all.py:14-17 | with no numbers there are no lines, and the output is `[\n\n]\n` |
| RecognizeCaptcha.Threshold | src/utils/recognizeCaptcha.ts:24 | the threshold is the environment value when set and 0.7 otherwise |
| RecognizeCaptcha.Check | src/utils/recognizeCaptcha.ts:68-86 | accepted iff not skipped, confidence >= threshold and length 4; the checks run skipped, then confidence, then length, and a wrong length is reported with the length read; the accepted text is the OCR text upper-cased, of length 4, with no lower-case letter |
| RecognizeCaptcha.Recognize | src/utils/recognizeCaptcha.ts:49-86 | a transport error, a non-200 status and an unparsable body fail with their own reason; a 200 reply with a parsed body gets exactly the verdict of `Check` |
| RecognizeCaptcha.RecognizeCaptcha | src/utils/recognizeCaptcha.ts:88-93 | success exactly as the checks decide; every failure becomes an error whose message is `驗證碼辨識失敗: ` followed by the original message |
| RecognizeCaptcha.SkippedComesFirst | src/utils/recognizeCaptcha.ts:68-71 | a skipped result is rejected as skipped whatever its confidence and length |
| RecognizeCaptcha.ThresholdIsInclusive | src/utils/recognizeCaptcha.ts:73-76 | a confidence equal to the threshold passes |
| RecognizeCaptcha.DefaultThresholdExample | src/utils/recognizeCaptcha.ts:24-76 | with the default threshold, 0.69 is rejected as low confidence and 0.7 is accepted |
| RecognizeCaptcha.AcceptedIsNormal | src/utils/recognizeCaptcha.ts:83-86 | checking an accepted text again gives the same text back (upper-casing is idempotent) |
| Scheduler.MillisOrder | src/utils/scheduler.ts:16-18 | on valid instants, comparing millisecond counts orders time as the fields read |
| Scheduler.MsUntil | src/utils/scheduler.ts:16-18 | `msUntil` is never negative; it is target - now, or 0 when the target has passed |
| Scheduler.InWindow | src/utils/scheduler.ts:68 | the definition: an hour is inside unless it is below `startHour` or above `endHour`, so both ends are included; the same test is used on every tick |
| Scheduler.NextWindowStart | src/utils/scheduler.ts:32-52 | the next window start is a valid instant |
| Scheduler.NextWindowStartIsNextEntry | src/utils/scheduler.ts:32-52 | from outside the window the result is `startHour:00:00.000`, the same day before the window and the next day after it; it is strictly later than now, and no instant in between is inside the window |
| Scheduler.LateEveningExample | src/utils/scheduler.ts:44-48 | at 23:xx with window 7-22 the next start is the next day at 07:00 |
| Scheduler.NextTopOfHour | src/utils/scheduler.ts:108-112 | the next top of the hour is on the hour, strictly after now and at most one hour later |
| Scheduler.MsToNextTop | src/utils/scheduler.ts:113 | the delay to the next top of the hour lies in (0, 3600000] |
| Scheduler.Split | src/utils/scheduler.ts:21-24 | h·3600 + m·60 + sec = floor(ms/1000), with m < 60 and sec < 60 |
| Scheduler.FormatDuration | src/utils/scheduler.ts:20-30 | the rendered duration is never empty |
| Scheduler.FormatDurationUnits | src/utils/scheduler.ts:20-30 | the rendered text shows the hour unit iff the hours are non-zero, the minute unit iff the minutes are non-zero, and the second unit iff the seconds are non-zero or both others are zero |
| Scheduler.DurationPartsShown | src/utils/scheduler.ts:25-29 | the hours part is shown iff h ≠ 0, the minutes part iff m ≠ 0, the seconds part iff sec ≠ 0 or h = m = 0; no other part is shown, and the parts come in the order hours, minutes, seconds |
| Text.JoinChars | src/utils/scheduler.ts:29 | a character that is not in the separator is in the joined text iff it is in one of the parts |
| Scheduler.WithDefaults | src/utils/scheduler.ts:55 | `immediate` defaults to true and `alignToTop` to false; the other options pass through |
| Scheduler.EntryEffects | src/utils/scheduler.ts:65-133 | the definition of what `startWindow` asks for; `EntryDecisions` states its cases |
| Scheduler.EntryDecisions | src/utils/scheduler.ts:65-133 | the task runs on entry iff the hour is inside the inclusive window and `immediate`; outside, the only effect is a timeout to the next window start; inside and unaligned, an interval follows; aligned, a start 0 < delay <= 1 h later follows |
| Scheduler.WindowScheduler.constructor | src/utils/scheduler.ts:54-55 | a new scheduler has no interval and has asked for nothing |
| Scheduler.WindowScheduler.StartInterval | src/utils/scheduler.ts:80-94 | clears this entry's interval if there is one and registers a new interval of `intervalMs`; at most one interval stays live |
| Scheduler.WindowScheduler.StartWindow | src/utils/scheduler.ts:65-133 | appends exactly the entry effects above; an interval is live afterwards only when inside the window and unaligned |
| Scheduler.WindowScheduler.TopReached | src/utils/scheduler.ts:121-131 | the aligned start runs the task, then starts the interval |
| Scheduler.WindowScheduler.Tick | src/utils/scheduler.ts:82-91 | inside the window a tick runs the task and changes nothing else; outside, it clears the interval and re-enters without running the task |
| FetchLatestPlates.FetchSchedule | src/fetchLatestPlates.ts:290 | the scraper runs from 07:00 to 22:59 every 15000 ms, immediately on entry, not aligned |
| FetchLatestPlates.Backoff | src/fetchLatestPlates.ts:56-81 | the wait after failed attempt j is 2000·(j+1) ms |
| FetchLatestPlates.Retry | src/fetchLatestPlates.ts:56-81 | `safeGoto`/`safeReload` make at most `attempts` calls, stop at the first success, wait 2000·(i+1) ms after each failure but the last, and rethrow the last error |
| FetchLatestPlates.CaptchaSteps | src/fetchLatestPlates.ts:138-171 | n recognition attempts alternate with refreshes, n - 1 of them, with no refresh after the last attempt |
| FetchLatestPlates.SolveCaptcha | src/fetchLatestPlates.ts:138-175 | at most three attempts; all attempts before the last failed; success on attempt k returns that text; three failures throw the give-up message |
| FetchLatestPlates.RefreshesBeforeAttempt | src/fetchLatestPlates.ts:160-168 | success on attempt k follows exactly k - 1 refreshes |
| FetchLatestPlates.LastPlate | src/fetchLatestPlates.ts:199-206 | the plate is the trimmed anchor text of the last cell, and absent without cells or anchor |
| FetchLatestPlates.LoadLog | src/fetchLatestPlates.ts:211-221 | a missing file, a parse error or a non-array is an empty log |
| FetchLatestPlates.Newest | src/fetchLatestPlates.ts:229-231 | the newest min(n, 20) entries, in their original order |
| FetchLatestPlates.UpdatePlateLog | src/fetchLatestPlates.ts:222-232 | appends iff the log is empty or its last plate differs; otherwise the list is unchanged; after an append the new record is last and min(old + 1, 20) entries remain |
| FetchLatestPlates.UpdateKeepsLogInvariant | src/fetchLatestPlates.ts:222-232 | the log never exceeds 20 entries, never repeats its last plate, and ends with the plate seen |
| FetchLatestPlates.SecondSightingIsNoOp | src/fetchLatestPlates.ts:223-250 | seeing the same plate again right after appending it changes nothing |
| FetchLatestPlates.Distance | src/fetchLatestPlates.ts:234-248 | a gap exists iff both the plate and the target are in the list; position is indexOf + 1 and remaining is indexOf(target) - indexOf(plate), both first occurrences |
| FetchLatestPlates.DistanceExample | src/fetchLatestPlates.ts:234-248 | in [CAT-2531, CAT-2532, CAT-2533], CAT-2531 is at position 1 with 2 to go |
| FetchLatestPlates.IsTimeout | src/fetchLatestPlates.ts:274 | the definition: an `Error` named `TimeoutError`, or one whose message contains `Navigation timeout` ignoring ASCII case; anything else is not a timeout |
| FetchLatestPlates.NavigationMessageIsTimeout | src/fetchLatestPlates.ts:274 | any message containing "Navigation Timeout" counts as a timeout |
| FetchLatestPlates.PlateScraper.constructor | src/fetchLatestPlates.ts:9-11 | no browser, the counter at 0 |
| FetchLatestPlates.PlateScraper.Disconnect | src/fetchLatestPlates.ts:14 | a browser that drops its connection keeps its identity, and nothing else changes |
| FetchLatestPlates.VisitPages | src/fetchLatestPlates.ts:83-206 | the steps on the pages go through iff the first navigation loads within three attempts, the form steps succeed, one of three CAPTCHA attempts gives a text, the submit succeeds, the last page loads within three attempts and the table can be read; a failed visit carries the error of the first failing step (`FirstError`): the third navigation error, or the step's own error, or the CAPTCHA give-up `Error` |
| FetchLatestPlates.PlateScraper.EnsureBrowser | src/fetchLatestPlates.ts:13-33 | a connected browser is reused and nothing changes; otherwise a failing launch propagates and nothing changes, and a successful launch gives a new connected browser with the counter reset to 0 |
| FetchLatestPlates.PlateScraper.CloseBrowser | src/fetchLatestPlates.ts:35-45 | the handle is always cleared; the counter, the launches and the log are unchanged |
| FetchLatestPlates.PlateScraper.FinishRun | src/fetchLatestPlates.ts:259-264 | the counter goes up by one; the browser is closed exactly when the counter reaches 50, and kept otherwise |
| FetchLatestPlates.PlateScraper.RecordPlate | src/fetchLatestPlates.ts:199-254 | the run reports the last cell's plate; the log gets the record with the formatted time iff that plate is non-empty and differs from the last logged one, keeping the newest 20; the distance is reported only after an append; the browser and the counter are unchanged |
| FetchLatestPlates.PlateScraper.FetchLatestPlates | src/fetchLatestPlates.ts:47-265 | without a live browser a failing launch fails the run and changes nothing; otherwise the run uses the live or a newly launched browser and completes iff every page step goes through; a failure carries the first failing step's error and keeps that browser, its counter and the log; a completed run records the plate as `RecordPlate` does, increments the counter and closes the browser at 50 |
| FetchLatestPlates.PlateScraper.RunOnce | src/fetchLatestPlates.ts:268-287 | the run leaves the browser, the counter, the launches and the log exactly as `fetchLatestPlates` does, and no error escapes; one retry after 15000 ms is scheduled iff the run failed with a timeout |
| FetchLatestPlates.PlateScraper.RetryRun | src/fetchLatestPlates.ts:278-284 | the delayed retry leaves the browser, the counter, the launches and the log exactly as one `fetchLatestPlates` run does, and its error is only logged |
| FetchLatestPlates.RunKeepsUsageBounded | src/fetchLatestPlates.ts:259-264 | whatever a run does, a live browser afterwards has served fewer than 50 completed runs if that held before |
| FetchLatestPlates.CaptchaFailureIsNotRetried | src/fetchLatestPlates.ts:166-169 | a run that gets to the CAPTCHA and fails all three attempts fails with the give-up `Error`, which is not a timeout, so `runOnce` schedules no retry |
| FetchLatestPlates.NavigationTimeoutIsRetried | src/fetchLatestPlates.ts:56-83 | a run whose three navigations to the query page fail, the last with a timeout, fails with that timeout, so `runOnce` schedules its retry |
| FetchLatestPlates.CompletedRunKeepsBrowser | src/fetchLatestPlates.ts:13-33 | a completed run on a live browser below the limit leaves that same browser live with the counter one higher, and launches nothing |
| ScheduleSendLineNotify.NotifySchedule | src/scheduleSendLineNotify.ts:43 | the notifier runs from 09:00 to 23:59 every 60000 ms, immediately on entry, not aligned |
| ScheduleSendLineNotify.Message | src/scheduleSendLineNotify.ts:22 | the message starts with `【` and ends with `個` and contains, each after its label, the plate with its position `lastIndex + 1`, the timestamp, the target `CAT-2533` and the count `targetIdx - lastIndex`, with no guard for -1 |
| ScheduleSendLineNotify.RenderReportsLastRecord | src/scheduleSendLineNotify.ts:11-22 | for a non-empty log the message is that of the last record, at the first positions of its plate and of the target in the list, and it contains that plate and its timestamp |
| ScheduleSendLineNotify.MessageAgreesWithDistance | src/scheduleSendLineNotify.ts:11-22 | when both plates are in the list, the message shows the position and the count to go that the scraper's distance report computes |
| ScheduleSendLineNotify.Render | src/scheduleSendLineNotify.ts:11-22 | a message exists iff the plate log is non-empty; an empty log makes the run fail |
| ScheduleSendLineNotify.LastMessage | src/scheduleSendLineNotify.ts:23-27 | a missing file counts as "", and the stored text is trimmed |
| ScheduleSendLineNotify.MessageIsTrimmed | src/scheduleSendLineNotify.ts:22-27 | a stored message reads back, trimmed, as itself |
| ScheduleSendLineNotify.Notifier.Run | src/scheduleSendLineNotify.ts:7-40 | a failed read sends nothing; a message equal to the stored one is neither sent nor written; otherwise it is sent, and written only when the send succeeds |
| ScheduleSendLineNotify.SecondRunIsSuppressed | src/scheduleSendLineNotify.ts:22-35 | after a successful send, a second run with the same inputs is suppressed |
| ScheduleSendLineNotify.ExampleMessage | src/scheduleSendLineNotify.ts:11-22 | with [CAT-2531, CAT-2532, CAT-2533] and CAT-2531 seen, the message shows position 1 and 2 to go |
| ScheduleSendLineNotify.MissingPlateStillRendered | src/scheduleSendLineNotify.ts:14-22 | a plate missing from the list is still reported, at position 0 |
| QueryPlate.QueryPlate | src/queryPlate.ts:27-51 | "not found" with the row's text when the empty row exists; otherwise "found" with `決標金額 ` and the fifth cell; otherwise "error" with an empty message; an exception gives "error" with its message |
| QueryPlate.IsNotFound | src/queryPlate.ts:87 | the definition: the status is `not found`, or the message is non-empty and contains 查無資料 |
| QueryPlate.NoDataErrorIsNotFound | src/queryPlate.ts:87 | an error whose message mentions 查無資料 is routed to the not-found stream |
| QueryPlate.Serialize | src/queryPlate.ts:93 | the definition: `JSON.stringify(result, null, 2)` of the three fields in order, without escaping |
| QueryPlate.FileName | src/queryPlate.ts:74-114 | the definition: `results` or `notfound`, then `_t1` for the first file and `_k` for file k after it, then `.json`; `FileNameInjective` states that names differ |
| QueryPlate.FileNameInjective | src/queryPlate.ts:74-114 | file names of different streams or positions differ (`_t1` for the first, `_N` later) |
| QueryPlate.RoutedPartition | src/queryPlate.ts:82-118 | every result lands in exactly one stream |
| QueryPlate.Batch | src/queryPlate.ts:95-102 | a file holds at most 500 records |
| QueryPlate.NamesGrow | src/queryPlate.ts:95-102 | opening the next file adds exactly that file |
| QueryPlate.AppendRecord | src/queryPlate.ts:90-102 | a separator goes before every record but the first of a file; on the 500th record the file is closed with `\n]`, the index moves on and a new file opens with `[\n`; only the open file and the new one change |
| QueryPlate.ClosedKept | src/queryPlate.ts:95-102 | closed files stay closed as more records arrive |
| QueryPlate.AppendToOpen | src/queryPlate.ts:90-94 | appending with the separator rule keeps the open file equal to its records joined by `,\n` |
| QueryPlate.RollOver | src/queryPlate.ts:95-102 | closing a full file and opening the next keeps the stream's layout |
| QueryPlate.OpenKept | src/queryPlate.ts:82-118 | writing one stream leaves the other stream's files as they were |
| QueryPlate.StepKept | src/queryPlate.ts:82-118 | one step keeps the other stream open and the directory equal to the files opened so far |
| QueryPlate.CloseStream | src/queryPlate.ts:121-133 | closing the open file finishes the stream with n/500 + 1 files |
| QueryPlate.Route | src/queryPlate.ts:88-118 | writing one record to one stream keeps both streams' layouts |
| QueryPlate.WriteRecord | src/queryPlate.ts:86-118 | a result goes to the not-found stream iff `isNotFound`, and to the results stream otherwise |
| QueryPlate.BothOpened | src/queryPlate.ts:72-80 | both streams start with one file holding `[\n` |
| QueryPlate.RoutedStep | src/queryPlate.ts:86-88 | one more result extends exactly one stream |
| QueryPlate.CloseBoth | src/queryPlate.ts:121-133 | both open files are closed with `\n]`, even empty ones, and the directory holds exactly both streams' files |
| QueryPlate.Results | src/queryPlate.ts:82-85 | one result per plate, in order |
| QueryPlate.WriteResults | src/queryPlate.ts:53-138 | each stream's file k holds its k-th run of up to 500 records, in input order, separated by `,\n` and bracketed; each stream has n/500 + 1 files, and there are no other files |

## Left out

- Puppeteer's page steps are abstract outcomes: the select cascade and its waits (`src/fetchLatestPlates.ts:83-134`) are one possible error, typing, submitting and reading the last-page link (`src/fetchLatestPlates.ts:178-187`) another, and the waits for the table (`src/fetchLatestPlates.ts:191-197`) a third. The table is a sequence of cells.
- `page.newPage`, the default timeouts, and `page.close` (`src/fetchLatestPlates.ts:51-54`, `src/fetchLatestPlates.ts:257`) are not modelled and are assumed to succeed. The click on the CAPTCHA refresh link is assumed to succeed too.
- FetchLatestPlates.PlateScraper.CloseBrowser: a failing `close()` is caught and logged in the source, so its effect equals a successful close; the model has no separate failure case.
- `safeReload` (`src/fetchLatestPlates.ts:70-81`) has the same loop as `safeGoto` and is called nowhere. `Retry` models both.
- The OCR HTTP request and the reading of its body (`src/utils/recognizeCaptcha.ts:28-64`) are a `Reply` input. `src/utils/lineNotify.ts` is not part of this model: the LINE send is a boolean input.
- RecognizeCaptcha.RecognizeCaptcha: the confidence and the threshold are `real`, and their rendering in the message is a parameter. `parseFloat` yielding NaN for a malformed environment value is not modelled.
- Text.ToUpper: only the ASCII letters change case. Unicode case mapping that changes the length is not modelled.
- Text strings are sequences of code points, not of UTF-16 code units, so `length` of a non-BMP text can differ.
- Real timers are not modelled: `setTimeout`, `setInterval` and their firing are effects, and the environment fires them by calling `Tick`, `TopReached` or `StartWindow`. Runs started by the interval while an earlier run is still in progress would interleave; that concurrency is left out.
- `runTaskSafe` (`src/utils/scheduler.ts:57-63`) catches every task error, so a run of the task is one `RunTask` effect, and its outcome is not an input.
- Scheduler.NextWindowStart: JavaScript `Date`, time zones and daylight saving are replaced by integer fields (a day number and the time of day). A day always has 24 hours.
- FormatDate.FormatDateLayout: the layout is proved for four-digit years only. Other years are rendered by `FormatDate` but are not covered by the lemma.
- The log messages and `console` output are not modelled, including the durations and dates they show.
- File I/O is not modelled: reading, writing and renaming files, the tmp file, the validation and the backup in `scripts/fix_notfound_all.py:19-28`. Persisted state is a value: `LogFile`, `Option<string>`, a map of files.
- JSON is abstract: parsing is ok, a parse error or not-an-array; non-record array elements of `latest_plates.json` are not modelled. `QueryPlate.Serialize` writes the `JSON.stringify(…, null, 2)` layout without escaping quotes or control characters. A `QueryResult` message is always a string: a thrown non-`Error` whose `message` is undefined (`src/queryPlate.ts:49`) would have its key omitted by `JSON.stringify` and would count as no message in `isNotFound`, and the model does not capture that.
- QueryPlate.WriteResults: the hard-coded plate list in `main` (`src/queryPlate.ts:56-68`) is an input. The directory is keyed by `(stream, index)`, which `FileNameInjective` shows to be the same as keying by file name.
- FixNotfoundAll.Extract: Python's `\d` also matches non-ASCII digits; the model accepts only '0'..'9'.
- FetchLatestPlates.IsTimeout: a thrown value that is not an `Error` has no name or message and is not a timeout; `err.message` being undefined is not modelled further.
- The signal handlers and the removal of temporary files (`src/fetchLatestPlates.ts:293-310`) are process plumbing. Only `closeBrowser` is modelled.
- `logMem` in `src/queryPlate.ts:8-16` and `scripts/monitor-memory.ts` are not modelled. They work with floating-point memory figures and logging.
