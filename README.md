# 7pace Timetracker autofill, modelled in Dafny

The program fills a 7pace Timetracker account with work logs, one day at a time, over a
date range. For each day the `TimeTrackerRunner` looks up the existing work logs. When the
lookup returns an empty list, it builds the day's task list: nothing on a Saturday or a
Sunday; a single 7-hour "Jour férié" day-off entry on a French public holiday; otherwise
two fixed tasks (1 h and 3 h) plus 3 hours spread at random over three "dynamic" task
templates. It then posts one work log per task, in order, each posting awaited before the
next. The older standalone script `index.js` does the same selection with a fixed 7-hour
working-day plan, makes no lookup, and launches one `curl` command per task. The
`TimeTrackerAPI` class builds the query strings, URLs and headers of those requests.

The project has these modules:

- `Wrappers` (`wrappers.dfy`): `Option` and `Outcome` (a promise that resolves or rejects).
- `Calendar` (`calendar.dfy`): a day is an integer, the number of days since Thursday
  1970-01-01. The weekday follows from the 7-day cycle, and the next day is `d + 1`. The
  date library and the holiday table are supplied as a `Calendar` value holding the year
  of a day, its `yyyy-MM-dd` text and the holidays of a year.
- `Text`, `JsObject`, `PercentEncoding`: joining on a separator, JavaScript objects as
  ordered key/value lists (`{...o, k: v}` is `Put`), and `encodeURIComponent` (the
  ECMAScript unreserved set, UTF-8 and `%XX` in upper-case hex).
- `WorkLog` (`work_log.dfy`): task templates, post bodies and the midnight timestamp.
- `TimeTrackerApi` (`time_tracker_api.dfy`): the request helpers and the request sent for
  each call the runner makes.
- `TimeTrackerRunner` (`time_tracker_runner.dfy`): the runner. `Math.random()` is a supply
  of draws. The remote service is a `Service` value that says how each call ends. The
  module-level `DYNAMIC_WORKING_DAY_TASKS` array is the `dynamic` array of the `Runner`
  class, updated in place and never reset. The class's methods are proved equal to the
  functions `CreateTasksSpec` and `RunSpec`, and the properties are proved about those
  functions.
- `LegacyScript` (`legacy_script.dfy`): `index.js`.

The runner functions `CreateTasksSpec`, `VisitDay`, `RunDays` and `RunSpec`, and the
`Runner` class, take whether the name the runner calls the creation by is a method of the
API class (`createResolves`). As written it calls `createWorkLogs`, which is not one (see
"## Findings"), so every creation throws before any request. Lemmas about the code as
written pass `Resolves(CREATE_CALL_AS_WRITTEN)`, lemmas about the corrected call pass
`Resolves(CREATE_CALL)`, and lemmas that hold either way take any value.

The code behaves as follows, and the model with it:

- As written, a run makes the day's lookups and posts nothing. With the user known, it
  stops on the first weekday whose lookup is an empty list: after the hour split on a
  working day, with the templates untouched on a holiday. A null user stops it on the
  first day with an empty lookup, weekend or not. A rejected lookup stops it earlier, and
  a stalled split leaves it looping (`VisitDayAsWritten`, `RunAsWrittenPostsNothing`,
  `HolidayRunAsWritten`).
- On a Saturday or a Sunday, `run` still makes the day's work-log lookup. Only
  `createTasks` skips the weekend (`WeekendOnlyLooksUp`).
- A failed creation or lookup is not caught. Axios rejects non-2xx responses, so the
  rejection ends `run` on that day (`ThrewOn`).
- The hour split has no bound on its iterations. A run of zero-hour draws keeps it
  looping (`ZeroDrawsNeverFinish`).
- The dynamic templates keep the hours of earlier days, since the split runs before the
  creation. With the creation call corrected, the second working day of a run would post
  10 hours, not 7 (`WorkingDayPlan`, `RunNeverResetsTemplates`).
- The dynamic templates use the key `activityType`, so their bodies go out without an
  `activityTypeId` (`None` in `PostBody`).
- No code reconciles, deletes or force-overwrites existing work logs. `deleteWorkLog`
  has no caller; only its request is modelled.

## Model

| member | source | states |
|---|---|---|
| Calendar.Weekday | src/TimeTrackerRunner.js:63-70 | the day of the week is an index below 7 (5 is Saturday, 6 is Sunday) |
| Calendar.SomeEntryOn | src/TimeTrackerRunner.js:37-39 | `some` over the holiday entries holds exactly when one entry's date equals the day |
| Calendar.IsPublicDay | src/TimeTrackerRunner.js:35-40 | a day is a public holiday exactly when it equals one of the holidays listed for its year (index.js:57-62 is the same function) |
| Calendar.DaysFrom | src/TimeTrackerRunner.js:138-151 | the days of an inclusive range: `last - first + 1` of them, the i-th being `first + i` |
| Text.SplitJoin | src/TimeTrackerAPI.js:22-25 | parts without the separator, joined, split back into the same parts |
| JsObject.Put | src/TimeTrackerAPI.js:18-21 | a spread with one key written last overwrites that key where it stands, or appends the pair |
| JsObject.PutGet | src/TimeTrackerAPI.js:18-21 | after the spread the key reads the new value, the keys stay distinct, and the length grows only when the key was new |
| JsObject.PutOther | src/TimeTrackerAPI.js:44-49 | the spread leaves the position and value of every other key unchanged |
| JsObject.Get | src/TimeTrackerAPI.js:18-21 | `o[k]` is the value of the first entry with key `k`, and `undefined` exactly when there is none |
| JsObject.IndexOfFirst | src/TimeTrackerAPI.js:18-21 | the key lookup finds the first entry with that key |
| PercentEncoding.Encode | src/TimeTrackerAPI.js:23 | `encodeURIComponent` output holds only unreserved characters and `%` |
| PercentEncoding.EncodeUnescaped | src/TimeTrackerAPI.js:23 | a string of unreserved characters encodes to itself |
| PercentEncoding.DecodeEncode | src/TimeTrackerAPI.js:23 | percent-decoding the encoding gives back the UTF-8 bytes of the value |
| PercentEncoding.Utf8RoundTrip | src/TimeTrackerAPI.js:23 | decoding the UTF-8 bytes of a string gives back its code points |
| PercentEncoding.Utf8Char | src/TimeTrackerAPI.js:23 | the lead byte of a character's UTF-8 sequence gives the sequence's length, and the sequence carries the code point |
| PercentEncoding.Utf8StringInjective | src/TimeTrackerAPI.js:23 | different strings have different UTF-8 bytes |
| PercentEncoding.EncodeInjective | src/TimeTrackerAPI.js:23 | `encodeURIComponent` loses no information: different values encode differently |
| PercentEncoding.Utf8 | src/TimeTrackerAPI.js:23 | each character is encoded as 1 to 4 bytes, and an ASCII character as itself |
| WorkLog.Timestamp | src/TimeTrackerRunner.js:73-77 | the timestamp is the day's `yyyy-MM-dd` text followed by `T00:00:00.000Z` |
| WorkLog.PostBodies | src/TimeTrackerRunner.js:114-119 | one body per task, in order: the task's hours times 3600 as length, its activity id and comment, and the shared timestamp and user id |
| WorkLog.TotalLengthOfBodies | src/TimeTrackerRunner.js:116 | the bodies' lengths add up to the tasks' hours in seconds |
| WorkLog.TotalHoursUpdate | src/TimeTrackerRunner.js:98 | raising one template's hours changes the total by exactly that difference |
| TimeTrackerApi.QuerySegments | src/TimeTrackerAPI.js:22-24 | one `key=encodeURIComponent(value)` segment per entry, in entry order |
| TimeTrackerApi.QueryAppendsApiVersion | src/TimeTrackerAPI.js:16-26 | without a caller `api-version`, the query splits on `&` into the caller's segments in order followed by `api-version=3.2-beta` |
| TimeTrackerApi.QueryOverwritesApiVersion | src/TimeTrackerAPI.js:16-26 | a caller `api-version` at position j is replaced in place by `api-version=3.2-beta`; the other segments are unchanged |
| TimeTrackerApi.QuerySplitsIntoSegments | src/TimeTrackerAPI.js:22-25 | the joined segments split back on `&` into exactly the segments |
| TimeTrackerApi.SegmentWithout | src/TimeTrackerAPI.js:23 | a `key=value` segment contains a character that encoding always escapes only if the key does |
| TimeTrackerApi.EmptyQuery | src/TimeTrackerAPI.js:16-26 | with no parameters the query is exactly `api-version=3.2-beta` |
| TimeTrackerApi.ApiVersionEncodesToItself | src/TimeTrackerAPI.js:9 | `3.2-beta` needs no escaping |
| TimeTrackerApi.UrlLayout | src/TimeTrackerAPI.js:34-37 | the URL splits on `?` into `API_REST_URL/endpoint` and the query string |
| TimeTrackerApi.GetHeaders | src/TimeTrackerAPI.js:44-49 | `Authorization` reads `Bearer <token>`, overriding a caller's own, keys stay distinct, and a header is added only when the caller had no `Authorization` |
| TimeTrackerApi.HeadersKeepCallerHeaders | src/TimeTrackerAPI.js:44-49 | every caller header other than `Authorization` keeps its value |
| TimeTrackerApi.HandleResponse | src/TimeTrackerAPI.js:56-63 | the body is returned if and only if the status is in 200..299, otherwise null |
| TimeTrackerApi.RequestOfCall | src/TimeTrackerAPI.js:72-125 | every request carries the bearer token; only the creation is a POST and sends the body; the user fetch goes to `me`, the lookup and the creation to `workLogs` |
| TimeTrackerApi.WorkLogsQueryWindow | src/TimeTrackerAPI.js:107-118 | the lookup query is the day's `T00:00:00` start, its `T23:59:00` end, then the API version |
| TimeTrackerApi.DeleteUrlLayout | src/TimeTrackerAPI.js:133-135 | the delete URL is `API_REST_URL/workLogs/<id>` with only the API version as query |
| TimeTrackerApi.DeleteUrlIdentifiesLog | src/TimeTrackerAPI.js:133-135 | different ids give different delete URLs |
| TimeTrackerRunner.Between | src/TimeTrackerRunner.js:48-52 | `between(min, max)` lies in `[min, max]` for every value of `Math.random()` |
| TimeTrackerRunner.Allocate | src/TimeTrackerRunner.js:92-101 | the hour split keeps the number of templates |
| TimeTrackerRunner.AllocateAddsNeededHours | src/TimeTrackerRunner.js:92-101 | when the split finishes it has added exactly the hours still needed (3 from a fresh start), fewer when the draws run out, and it has consumed a prefix of the draws |
| TimeTrackerRunner.AllocateOnlyAddsHours | src/TimeTrackerRunner.js:97-99 | the split changes only hours, and never lowers a template's hours |
| TimeTrackerRunner.ZeroDrawsNeverFinish | src/TimeTrackerRunner.js:94-101 | draws of zero hours leave everything unchanged, so the loop never ends on them |
| TimeTrackerRunner.Positive | src/TimeTrackerRunner.js:105 | the filter keeps exactly the templates with hours and keeps their total |
| TimeTrackerRunner.PositiveAppend | src/TimeTrackerRunner.js:103-106 | the filter keeps order |
| TimeTrackerRunner.PlanDay | src/TimeTrackerRunner.js:61-107 | a day is skipped exactly when it is a Saturday or a Sunday; a holiday gets the day-off list and leaves templates and draws alone; a working day's templates are those of the hour split |
| TimeTrackerRunner.HolidayPostsOneDayOff | src/TimeTrackerRunner.js:86-87 | a holiday posts exactly one body: `ACTIVITY_DAY_OFF`, 25200 s, "Jour férié" |
| TimeTrackerRunner.WorkingDayPlan | src/TimeTrackerRunner.js:89-106 | a working day's list is the static tasks in order then the filtered templates; the templates gain 3 hours; the list totals 7 hours plus what the templates held before |
| TimeTrackerRunner.Issue | src/TimeTrackerRunner.js:110-122 | at most one creation per body; every body is posted when nothing rejects; a rejected chain ends on the creation that rejected; a name that is not a method throws before any request |
| TimeTrackerRunner.IssuePostsInOrder | src/TimeTrackerRunner.js:110-122 | the creations made are the first bodies in order, and each but a rejected last one resolved |
| TimeTrackerRunner.CreateWorkLogsIsNotAFunction | src/TimeTrackerRunner.js:121 | as written, `createWorkLogs` is not a method of the API class, so the first creation throws and nothing is posted |
| TimeTrackerRunner.CreationsPostedInOrder | src/TimeTrackerRunner.js:110-122 | calling `createWorkLog`, which the class defines, posts every body in order when no call rejects |
| TimeTrackerRunner.CreateTasksSpec | src/TimeTrackerRunner.js:61-123 | `createTasks` keeps the number of templates, whether the creation call resolves or not |
| TimeTrackerRunner.DayOnlyCreates | src/TimeTrackerRunner.js:61-123 | `createTasks` only appends creations, each stamped with the day and the user, and changes nothing on a weekend |
| TimeTrackerRunner.CreateTasksOnlyAddsHours | src/TimeTrackerRunner.js:98-99 | `createTasks` changes the templates only by adding hours |
| TimeTrackerRunner.VisitDay | src/TimeTrackerRunner.js:139-151 | one day of the loop stops the run only on that day, by a rejection or a stalled split |
| TimeTrackerRunner.VisitDayCalls | src/TimeTrackerRunner.js:142-148 | one day makes its lookup first, then only creations for that day and user, and those only on a weekday whose lookup was empty |
| TimeTrackerRunner.VisitDayLooksUpOnce | src/TimeTrackerRunner.js:142 | one day looks up that day and no other |
| TimeTrackerRunner.VisitDayCreatesOnlyOnEmptyDay | src/TimeTrackerRunner.js:142-145 | a day's creations belong to a weekday with an empty lookup, and to the fetched user |
| TimeTrackerRunner.VisitDayOnlyAddsHours | src/TimeTrackerRunner.js:142-145 | one day changes the templates only by adding hours |
| TimeTrackerRunner.FilledDayOnlyLooksUp | src/TimeTrackerRunner.js:143-148 | with the user known, a day with work logs, or a weekend day with a lookup, is only looked up |
| TimeTrackerRunner.RunDays | src/TimeTrackerRunner.js:138-152 | the date loop keeps the number of templates |
| TimeTrackerRunner.RunSpec | src/TimeTrackerRunner.js:129-153 | `run` keeps the number of templates |
| TimeTrackerRunner.RunVisitsEachDay | src/TimeTrackerRunner.js:138-152 | the loop looks up every day of the range once, in increasing order, weekends included, up to the end or the day it stopped on |
| TimeTrackerRunner.RunCreatesOnlyOnEmptyDays | src/TimeTrackerRunner.js:142-145 | every work log posted comes after the lookup of a weekday of the range, with only creations in between; that lookup returned an empty list, the body carries that day's timestamp, and the user is the one fetched at the start |
| TimeTrackerRunner.FilledRangeCreatesNothing | src/TimeTrackerRunner.js:138-152 | over a range whose weekdays already have work logs (weekends may be empty), the run makes only the lookups and leaves templates and draws alone, so a second run over a range it filled changes nothing |
| TimeTrackerRunner.WeekendOnlyLooksUp | src/TimeTrackerRunner.js:142-144 | a weekend day with an empty lookup costs one lookup and posts nothing |
| TimeTrackerRunner.RunNeverResetsTemplates | src/TimeTrackerRunner.js:19-23 | over a run the templates change only by gaining hours |
| TimeTrackerRunner.HolidayRun | src/TimeTrackerRunner.js:129-148 | with the creation call corrected, a run over one empty holiday makes exactly: the user fetch, the lookup, one 7-hour day-off creation |
| TimeTrackerRunner.HolidayRunAsWritten | src/TimeTrackerRunner.js:129-148 | as written, the same run makes the user fetch and the lookup, then throws on that day with nothing posted |
| TimeTrackerRunner.VisitDayAsWritten | src/TimeTrackerRunner.js:121 | as written, a day makes only its lookup; a weekday with an empty lookup, a known user and a finished split stops the run there, with the split's templates and draws |
| TimeTrackerRunner.RunAsWrittenPostsNothing | src/TimeTrackerRunner.js:121 | as written, the calls of a run are exactly the lookups of the days up to where it ended; no work log is posted |
| TimeTrackerRunner.EmptyWeekdayPosts | src/TimeTrackerRunner.js:142-145 | the converse of `VisitDayCalls`: with the creation call corrected, a weekday with an empty lookup, a known user, a finished split and no rejection gets every task of its list posted in order, then the loop goes on |
| TimeTrackerRunner.Runner.constructor | src/TimeTrackerRunner.js:19-23 | the dynamic templates start at 0 hours, with no call made; the creation call resolves exactly when its name is one of the API class's methods |
| TimeTrackerRunner.Runner.AllocateRemaining | src/TimeTrackerRunner.js:92-101 | the `while` loop over the dynamic array leaves the array and the draws as `Allocate` says, and returns at most 3 added hours, exactly 3 when the split finished |
| TimeTrackerRunner.Runner.IssueCreations | src/TimeTrackerRunner.js:110-122 | the awaited `reduce` appends the calls of `Issue` to the call log and rejects when it does; when the creation call does not resolve, the first callback throws before any request |
| TimeTrackerRunner.Runner.CreateTasks | src/TimeTrackerRunner.js:61-123 | `createTasks` leaves the runner in the state `CreateTasksSpec` gives |
| TimeTrackerRunner.Runner.Run | src/TimeTrackerRunner.js:129-153 | `run` leaves the runner in the state `RunSpec` gives and ends as it says |
| LegacyScript.DayPlan | index.js:69-95 | no plan exactly on a weekend; the day-off plan on a holiday; the fixed three-task plan otherwise |
| LegacyScript.DayIsSevenHours | index.js:32-39 | every weekday is booked for exactly 25200 s, holiday or not |
| LegacyScript.WeekdayBodies | index.js:84-106 | the exact bodies of a working day (3600, 10800, 10800 s) and of a holiday (25200 s) |
| LegacyScript.EveryDayGetsItsPlan | index.js:142-150 | with no lookup, every day of the range gets its whole plan, between the days before and after it |
| LegacyScript.RangeIsSevenHoursPerWeekday | index.js:142-150 | a range is booked for 25200 s per weekday |
| LegacyScript.CreateTasks | index.js:69-134 | `createTasks` launches the day's bodies in task order; a failing command is logged and the next is launched anyway |
| LegacyScript.Run | index.js:136-150 | the date loop launches the bodies of every day of the range in order, whatever fails |

## Left out

- Logging (`Logger`, `console.log`), `ContextManager`, dotenv and `process.env`: output
  and configuration only. The start date, end date, token and user id are parameters.
- date-fns parsing, formatting and time zones, and the `@socialgouv/jours-feries` table:
  the year, the date text and the holiday list are supplied by `Calendar`.
- The network: Axios and the remote service are replaced by the `Service` answers. The
  request records from `TimeTrackerApi` are not sent anywhere.
- TimeTrackerRunner.Between: does not model floating-point rounding. `Math.random()` is
  taken as an exact fraction `u / 2^53`.
- TimeTrackerRunner.Allocate: the draws are a finite supply. When it runs out the split
  reports `OutOfDraws` where the code would keep looping, and the run ends with
  `LoopingOn`.
- The `curl` command text, its headers and `child_process.exec` in `index.js`: a launched
  command is represented by its body.
- Completion order of the unawaited `forEach` callbacks in `index.js`. The model records
  launches in list order, which is the order in which they start.
- The three bodies fields always null (`workItemId`, `repoId`, `repoFullName`) are not
  represented.
- PercentEncoding.Encode: does not model the `URIError` that `encodeURIComponent` throws
  on a lone UTF-16 surrogate, because a Dafny `char` is a Unicode scalar value and cannot
  hold one. The values encoded here (date texts, `3.2-beta`) contain none.
- JavaScript's ordering of integer-like object keys before other keys is not modelled.
  The keys used here are not integer-like.
- TimeTrackerRunner.VisitDay: a lookup body is taken as either an empty list, some other
  list, or no list. Other values whose `length` is 0 (an empty string) are not
  distinguished.
- The user fetched by `getMe` is its `data.user.id`, or `None` when the body is `null`.
  Reading the id then throws, which ends the run on the first empty day.
- `HandleResponse` is modelled on its own. Under Axios's default status check a non-2xx
  response rejects before it is reached, so the runner's service answers are outcomes.

## Findings

| source | as written | input that shows it | evidently intended | confidence | as-written member | corrected member |
|---|---|---|---|---|---|---|
| src/TimeTrackerRunner.js:121 | creations call `TimeTrackerAPI.createWorkLogs(postData)`, a name the class does not define | any weekday in range whose lookup returns an empty list: the first creation throws a TypeError, nothing is posted and the run ends on that day | call `createWorkLog` (src/TimeTrackerAPI.js:89), posting every body in order | high, not executed | TimeTrackerRunner.CreateWorkLogsIsNotAFunction | TimeTrackerRunner.CreationsPostedInOrder |
