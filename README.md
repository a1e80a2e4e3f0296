# Daily fortune, calendar and photo paths: a Dafny model

This project models three parts of a personal saju (Korean four-pillars) diary app:

- The daily-fortune endpoint, `POST /api/fortune/today`. It returns the stored fortune of a date from the `daily_fortunes` table. If none is stored, it reads the single `saju_profile` row, asks a language model for a fortune, checks the reply, stores it and returns it. Every failure along the way has its own typed error answer.
- The calendar helpers. They compute the first and last day of a month, the Sunday-first month grid with leading blanks, and the `yyyy-MM-dd` key that rows are stored under.
- The photo-storage paths. These are the object path an upload is stored under, and the path that `deletePhoto` rebuilds from a public URL.

Modules:

- `Wrappers`: `Option` and `Result`.
- `ResponseText`: the clean-up of the model's text before `JSON.parse`. It covers the two global regular-expression replaces and `String.prototype.trim`.
- `FortuneRoute`: the endpoint.
  - `Interpret` and `Decide` decide what the model's output text becomes.
  - `AfterGeneration` and `Handle` give the whole request as a function. The inputs are the fortune table, the profile, what the database and the model answer (`Backend`), and `JSON.parse` (`parse`). The result is the answer, the new table and the round trips made.
  - The class `FortuneTables` holds the two tables and a log of round trips. `FortuneTables.Post` runs the early-return chain step by step against it, with `FortuneTables.UseReply` for the part after the model call. It is proved equal to `Handle`.
- `Decimal`: decimal digit strings, zero padding, and the lexicographic order of digit strings.
- `CalendarDates`: proleptic Gregorian dates, `getMonthRange`, `getCalendarDays` and `getDateKey`.
- `PhotoStorage`:
  - `split` and `pop`;
  - the upload path of `uploadPhoto` and its error;
  - the path and error of `deletePhoto`.

Modelling choices that follow the code rather than the type annotations:

- `parsed.재물운` on a parsed `null` throws a `TypeError`. The outer `catch` turns it into `llm_request_failed` (`Decide`).
- A parsed value that is a number, string, boolean or array has none of the keys. It ends as `invalid_fortune_data`.
- `|| null` stores every falsy optional field as `null`, including a `lucky_number` of `0` (`FalsyOptionalIsNull`).
- `new Date(y, m - 1, 1)` reads the years 0 to 99 as 1900 to 1999. A month outside 1 to 12 rolls over into an earlier or later year, as many years as it takes (`FullYear`, `FirstOfMonth`).
- The `yyyy` pattern of `format` prints the year of the era, so year 0 prints as `0001` (`YearOfEra`).
- `deletePhoto` on a URL without `/` reads `urlParts[-1]`, which is `undefined`. The template string prints it, so the removed path is `undefined/<url>` (`DeletePathWithoutSlash`).

## Model

| member | source | states |
|---|---|---|
| FortuneRoute.TodayKey | src/app/api/fortune/today/route.ts:34-38 | A non-empty `date` is the key. Otherwise the key is the first ten characters of the clock's ISO string, or all of it when shorter. |
| FortuneRoute.ClockKeyIsDateKey | src/app/api/fortune/today/route.ts:36-37 | For years 1 to 9999, with no `date` (or an empty one), the key is the `yyyy-MM-dd` key of the UTC date the ISO string begins with. |
| FortuneRoute.Response.Status | src/app/api/fortune/today/route.ts:51-221 | Status 200 exactly for a fortune row, 400 exactly for `profile_not_found`, and 500 exactly for every other error. |
| FortuneRoute.Response.ErrorCode | src/app/api/fortune/today/route.ts:51-222 | Definition with no contract of its own: the `error` code each error answer carries. `SelectErrorIsReported` states it for `failed_to_fetch_fortune`. |
| FortuneRoute.Truthy | src/app/api/fortune/today/route.ts:158-182 | Definition with no contract of its own: JavaScript truthiness of a possibly missing JSON value. Missing values, `null`, `false`, `0` and `""` are falsy. `OrEmpty`, `OrNull` and `FalsyOptionalIsNull` state what the `||` chains do with it. |
| FortuneRoute.Property | src/app/api/fortune/today/route.ts:158 | `parsed.key` has a value exactly when the parsed value is an object holding the key, and then it is that field. |
| FortuneRoute.OrEmpty | src/app/api/fortune/today/route.ts:158-160 | The result is truthy exactly when the field is, and is then the field itself. |
| FortuneRoute.OrNull | src/app/api/fortune/today/route.ts:180-182 | An optional field is kept exactly when truthy, and is otherwise `null`. |
| FortuneRoute.Content | src/app/api/fortune/today/route.ts:157-161 | Definition with no contract of its own: the three categories, each read with `OrEmpty`. `Decide` states the row it yields. |
| FortuneRoute.Complete | src/app/api/fortune/today/route.ts:164 | Definition with no contract of its own: all three categories are truthy. `Decide` states that exactly the complete objects are accepted, and that the rest answer `invalid_fortune_data`. |
| FortuneRoute.Excerpt | src/app/api/fortune/today/route.ts:146 | The raw text in `llm_invalid_json` is the prefix of the output holding its first 500 characters, or all of it when shorter. |
| FortuneRoute.Interpret | src/app/api/fortune/today/route.ts:112-138 | `llm_empty_output` exactly when the output text is missing or empty. Any other text gets `Decide`'s answer on the parse of the cleaned text (`ResponseText.Clean`). Every rejection is a 500 error other than a fortune. |
| FortuneRoute.Decide | src/app/api/fortune/today/route.ts:139-183 | `llm_invalid_json` exactly when the text did not parse, carrying the 500-character excerpt of the raw text. A parsed `null` fails as a thrown `TypeError`. Any other parsed value missing a truthy category answers `invalid_fortune_data` carrying the parsed value. Success exactly when the parsed value is an object with all three categories truthy. The row then has the request's date, those three values, and the optional fields filtered by truthiness. Every rejection is a 500 error. |
| FortuneRoute.InsertRow | src/app/api/fortune/today/route.ts:188-199 | The insert fails on a database error, with that error, or on a date that already has a row, with the unique-key message. Either way the table is unchanged. Otherwise it adds exactly `row` with the database's `created_at` under its date. |
| FortuneRoute.AfterGeneration | src/app/api/fortune/today/route.ts:112-222 | A thrown model call answers `llm_request_failed` with its message and makes no call. A reply `Interpret` rejects is answered with that error, with no call and the table unchanged. A reply it accepts is inserted exactly once. Then a database error answers `failed_to_save_fortune` with that error, and a date that already has a row answers it with the unique-key message; either way the table is unchanged. Otherwise the answer is the row stamped with `created_at`, and the table gains exactly that row under its date. |
| FortuneRoute.Handle | src/app/api/fortune/today/route.ts:42-222 | Definition with no contract of its own: the whole request as a function. Its answers are given branch by branch by `SelectErrorIsReported`, `CacheHitIsReturnedUnchanged`, `ProfileIsRequired` and `HandleGenerates`. After the model call, `RejectedReplyIsReported`, `EmptyOutputIsReported`, `AcceptedReplyIsStored` and `ObjectReplyIsStored` give them in terms of `Interpret` and `Decide`. Its effect on the table and the log is stated by `WritesOnlyTheNewRow`, `HandleKeepsKeyed` and `AtMostOneInsert`. `FortuneTables.Post` is proved equal to it. |
| FortuneRoute.SelectErrorIsReported | src/app/api/fortune/today/route.ts:45-56 | A failed fortune lookup answers `failed_to_fetch_fortune` with status 500 and the database's message, after that lookup alone, with the table unchanged. |
| FortuneRoute.HandleGenerates | src/app/api/fortune/today/route.ts:62-222 | With no cached row and a profile, the request is the two lookups and the model call, followed by exactly what `AfterGeneration` does. |
| FortuneRoute.RejectedReplyIsReported | src/app/api/fortune/today/route.ts:112-175 | Past both lookups, a reply the endpoint rejects is answered with `Interpret`'s error (`llm_empty_output`, `llm_invalid_json`, `llm_request_failed` for a parsed `null`, or `invalid_fortune_data`). This comes after exactly the three calls, with the table unchanged. |
| FortuneRoute.EmptyOutputIsReported | src/app/api/fortune/today/route.ts:114-125 | A missing or empty model text answers `llm_empty_output`, with the table unchanged and no insert. |
| FortuneRoute.AcceptedReplyIsStored | src/app/api/fortune/today/route.ts:177-204 | Past both lookups with a working database, an accepted reply's row is stamped with `created_at`, stored under the request's date and returned. |
| FortuneRoute.ObjectReplyIsStored | src/app/api/fortune/today/route.ts:157-204 | Any parsed object with the three categories truthy is stored and returned: those three values, the truthy optional fields (the rest `null`), the request's date and `created_at`. |
| FortuneRoute.CacheHitIsReturnedUnchanged | src/app/api/fortune/today/route.ts:45-60 | If a row exists for the date, it is returned as stored after one lookup. No profile read, no model call, no write. In a table that keeps every row under its own date, the returned row is for the requested date. |
| FortuneRoute.ProfileIsRequired | src/app/api/fortune/today/route.ts:63-81 | With no cached row, a profile read error gives `failed_to_fetch_profile` and a missing profile gives a 400 `profile_not_found`. Either way the table is unchanged and no model call is made. |
| FortuneRoute.WritesOnlyTheNewRow | src/app/api/fortune/today/route.ts:40-223 | A request changes the table only by adding one new row, under a date that had none, stamped with the insert's `created_at`, and only when it answers with that row. No other date's row is added, removed or changed. |
| FortuneRoute.HandleKeepsKeyed | src/app/api/fortune/today/route.ts:177-192 | Every row stays stored under its own `fortune_date`. |
| FortuneRoute.AtMostOneInsert | src/app/api/fortune/today/route.ts:40-223 | A request performs at most one insert, and a request that changed the table performed exactly one. |
| FortuneRoute.CompleteReplyIsStored | src/app/api/fortune/today/route.ts:157-204 | An example: an object with exactly the six keys, the text fields non-empty strings and `lucky_number` a non-zero number. For a date without a row and a working database, it is stored and returned with exactly those six values. |
| FortuneRoute.FalsyOptionalIsNull | src/app/api/fortune/today/route.ts:180-182 | An optional field that is present but falsy, such as `lucky_number` 0, is stored as `null`. |
| FortuneRoute.FencedReplyIsUnwrapped | src/app/api/fortune/today/route.ts:132-138 | For a text without backticks whose trimmed form parses, a reply wrapped in a `json` code fence is decided exactly like the bare reply. Texts that do not parse are excluded, because each `llm_invalid_json` answer carries an excerpt of its own raw text. |
| FortuneRoute.FortuneTables.SelectFortuneRow | src/app/api/fortune/today/route.ts:45-49 | The fortune lookup logs one call, then fails with the database's error or returns the row stored under the date, if any. A row it finds is for the requested date. |
| FortuneRoute.FortuneTables.SelectProfileRow | src/app/api/fortune/today/route.ts:63-67 | The profile lookup logs one call, then fails with the database's error or returns the profile row, if any. |
| FortuneRoute.FortuneTables.GenerateFortune | src/app/api/fortune/today/route.ts:88-106 | The model call logs the date and the profile's chart data it is sent, and returns the model's reply. |
| FortuneRoute.FortuneTables.Insert | src/app/api/fortune/today/route.ts:188-192 | The insert logs itself, and its result and the new table are those of `InsertRow` on the old table. It keeps every row under its own date. |
| FortuneRoute.FortuneTables.UseReply | src/app/api/fortune/today/route.ts:112-222 | After the model call, the answer, the new table and the logged calls are those of `AfterGeneration` on the old table. Every row stays under its own date. |
| FortuneRoute.FortuneTables.Post | src/app/api/fortune/today/route.ts:40-223 | The step-by-step handler answers exactly what `Handle` answers for the key `TodayKey` picks. It leaves the table as `Handle` does and appends exactly `Handle`'s round trips to the log. |
| ResponseText.TrimStart | src/app/api/fortune/today/route.ts:137 | The result is the suffix of the input after a run of white space, and does not begin with white space. |
| ResponseText.IsWhiteSpace | src/app/api/fortune/today/route.ts:137 | Definition with no contract of its own: the ECMAScript WhiteSpace and LineTerminator code points that `trim` removes. `TrimStart`, `TrimEnd` and `TrimIsTrimmedSlice` use it. |
| ResponseText.TrimEnd | src/app/api/fortune/today/route.ts:137 | The result is the prefix of the input before a run of white space, and does not end with white space. |
| ResponseText.Trim | src/app/api/fortune/today/route.ts:137 | Definition with no contract of its own: `TrimEnd` after `TrimStart`. `TrimIsTrimmedSlice` and `TrimIdempotent` state its properties. |
| ResponseText.TrimIsTrimmedSlice | src/app/api/fortune/today/route.ts:137 | `trim` yields a contiguous slice of its input with no white space at either end. |
| ResponseText.TrimIdempotent | src/app/api/fortune/today/route.ts:137 | Trimming twice is trimming once. |
| ResponseText.Clean | src/app/api/fortune/today/route.ts:134-137 | The text handed to `JSON.parse` holds no run of three backticks and no white space at either end. |
| ResponseText.StripJsonFences | src/app/api/fortune/today/route.ts:135 | The result is no longer than the input. `StripJsonFencesNoFence` and `StripJsonFencesPrefix` state what it keeps. |
| ResponseText.StripFences | src/app/api/fortune/today/route.ts:136 | The result is no longer than the input. `NoFenceAfterStrip`, `StripFencesNoFence` and `StripFencesPrefix` state what it removes and keeps. |
| ResponseText.NoFenceAfterStrip | src/app/api/fortune/today/route.ts:136 | No run of three backticks survives the global replace of /```\n?/. |
| ResponseText.StripJsonFencesNoFence | src/app/api/fortune/today/route.ts:135 | Text without a fence is left alone by the /```json\n?/ replace. |
| ResponseText.StripFencesNoFence | src/app/api/fortune/today/route.ts:136 | Text without a fence is left alone by the /```\n?/ replace. |
| ResponseText.CleanIdempotent | src/app/api/fortune/today/route.ts:134-137 | Cleaning already-cleaned text changes nothing. |
| ResponseText.StripJsonFencesPrefix | src/app/api/fortune/today/route.ts:135 | A leading stretch without backticks passes through the /```json\n?/ replace unchanged. |
| ResponseText.StripFencesPrefix | src/app/api/fortune/today/route.ts:136 | A leading stretch without backticks passes through the /```\n?/ replace unchanged. |
| ResponseText.CleanOfBare | src/app/api/fortune/today/route.ts:134-137 | Text without backticks is only trimmed. |
| ResponseText.CleanFencedReply | src/app/api/fortune/today/route.ts:134-137 | A reply wrapped in ```` ```json ```` and a newline, followed by a newline and ```` ``` ````, cleans to the trimmed text inside. |
| CalendarDates.FirstOfMonth | src/shared/lib/date.ts:13 | `new Date(year, month - 1, 1)` is a valid first of a month. It is the given month when `month` is in 1 to 12 and the year is not in 0 to 99. It is always the `month`-th month counted from January of the full year, January being the first: its year times 12 plus its month equals the full year times 12 plus `month`. |
| CalendarDates.FullYear | src/shared/lib/date.ts:13 | Definition with no contract of its own: `new Date` reads the years 0 to 99 as 1900 to 1999. `FirstOfMonth` states its effect. |
| CalendarDates.GetMonthRange | src/shared/lib/date.ts:12-16 | `start` is the first of the month and `end` its last day. They are in the same month, and `end` is followed by the first of the next month. The interval spans exactly that month's number of days. |
| CalendarDates.Previous | src/widgets/calendar/CalendarScreen.tsx:116 | Day 0 of a month, as `new Date(y, m, 0)` reads it: a valid date whose next day is the given date. |
| CalendarDates.MonthEndIsDayZero | src/widgets/calendar/CalendarScreen.tsx:116 | The calendar screen's month end, `new Date(year, month, 0)`, is the last day `getMonthRange` gives for the month. |
| CalendarDates.DaysInMonth | src/shared/lib/date.ts:14 | The length of a month is between 28 and 31 days. `GetMonthRange` and `EachDayToMonthEnd` tie it to the month's last day and to the number of days listed. |
| CalendarDates.Weekday | src/shared/lib/date.ts:22 | `getDay` is between 0 and 6. `KnownWeekdays` anchors it to known dates, and `NextWeekday` shows it advances by one each day. |
| CalendarDates.EachDayOfInterval | src/shared/lib/date.ts:20 | Definition with no contract of its own: every day from start to end, for start no later than end. `EachDayNumbers`, `EachDayInOrder` and `EachDayToMonthEnd` state what it lists. |
| CalendarDates.GetCalendarDays | src/shared/lib/date.ts:18-26 | Definition with no contract of its own: the leading blanks followed by the days. `CalendarDaysLayout`, `CalendarDaysAligned` and `CalendarFitsSixWeeks` state its shape. |
| CalendarDates.NextIsOneDayLater | src/shared/lib/date.ts:20 | The next calendar day is one day number later. |
| CalendarDates.NextWeekday | src/shared/lib/date.ts:22 | The next day's weekday is the following weekday, modulo 7. |
| CalendarDates.KnownWeekdays | src/shared/lib/date.ts:22 | The weekday numbering agrees with `getDay` on fixed dates: 1970-01-01 is a Thursday (4), 2000-01-01 a Saturday (6), 2024-02-29 a Thursday (4). |
| CalendarDates.EachDayToMonthEnd | src/shared/lib/date.ts:20 | `eachDayOfInterval` from day k to the month's last day lists days k, k + 1, ... of that month, in order. |
| CalendarDates.CalendarDaysLayout | src/shared/lib/date.ts:18-26 | The grid opens with as many blanks as the first day's weekday (at most 6). Then comes every day of the month, from 1 up, each the day after the one before. |
| CalendarDates.CalendarDaysAligned | src/shared/lib/date.ts:22-25 | Under a Sunday-first header of seven columns, every day of the grid sits in the column of its own weekday. |
| CalendarDates.CalendarFitsSixWeeks | src/shared/lib/date.ts:18-26 | The grid never holds more than six rows of seven cells. |
| CalendarDates.DateKeyParts | src/shared/lib/date.ts:8-10 | The key is the zero-padded year, `-`, a two-digit month, `-`, a two-digit day. |
| CalendarDates.DateKey | src/shared/lib/date.ts:8-10 | Definition with no contract of its own: `yyyy-MM-dd`. `DateKeyParts`, `DateKeyFormat`, `DateKeyInjective` and `DateKeyOrder` state its properties. |
| CalendarDates.YearOfEra | src/shared/lib/date.ts:9 | Definition with no contract of its own: the year `yyyy` prints, which is 1 - y for years up to 0. `DateKeyParts` states it is the key's first field. |
| CalendarDates.DateKeyFormat | src/shared/lib/date.ts:8-10 | For years 1 to 9999 the key is ten characters, `yyyy-MM-dd`. Its digit groups read back as the year, month and day. |
| CalendarDates.DateKeyInjective | src/shared/lib/date.ts:8-10 | Distinct dates of the Common Era have distinct keys. |
| CalendarDates.DateKeyOrder | src/shared/lib/date.ts:8-10 | For four-digit years, string order of keys is calendar order, in both directions. |
| CalendarDates.MonthKeyInterval | src/widgets/calendar/CalendarScreen.tsx:115-116 | A key lies between the keys of the month's first and last day, both included, exactly when its date is in that month. Under string order of keys, these bounds select exactly the month in the monthly `gte`/`lte` query. |
| CalendarDates.BeforeIsDayOrder | src/shared/lib/date.ts:20 | Calendar order is the order of day numbers, in both directions. |
| CalendarDates.EachDayNumbers | src/shared/lib/date.ts:20 | `eachDayOfInterval` lists consecutive days. The i-th is i days after the start, and there are as many as the interval holds. |
| CalendarDates.EachDayInOrder | src/shared/lib/date.ts:20 | The days `eachDayOfInterval` lists are valid and in calendar order, each before every later one. |
| Decimal.Digits | src/shared/api/storage.ts:11 | The decimal rendering of a number is a non-empty string of digits. |
| Decimal.PadLeft | src/shared/lib/date.ts:9 | `padStart` with zeros: the result has the larger of the width and the input's length, ends with the input, and keeps a digit string all digits. `Padded` states that it reads back as the number. |
| Decimal.ValueOfDigits | src/shared/api/storage.ts:11 | The decimal rendering reads back as the number. |
| Decimal.Padded | src/shared/lib/date.ts:9 | Zero padding to a width yields digits that read back as the number. It is at least that wide, and exactly that wide when the number fits. |
| Decimal.LessIsNumericOrder | src/entities/fortune/index.ts:39-40 | On digit strings of equal length, string `<` is numeric `<`. |
| Decimal.Less | src/entities/fortune/index.ts:39-40 | Definition with no contract of its own: lexicographic order of strings, which the database applies to the keys. `LessIsNumericOrder`, `DateKeyOrder` and `MonthKeyInterval` state what it means on keys. |
| PhotoStorage.Split | src/shared/api/storage.ts:10 | `split` always returns at least one piece. |
| PhotoStorage.SplitJoins | src/shared/api/storage.ts:10 | The pieces hold no separator and join back to the input. There is one piece exactly when the input holds no separator. |
| PhotoStorage.SplitAround | src/shared/api/storage.ts:32 | Splitting at one occurrence of the separator splits both sides independently. |
| PhotoStorage.Pop | src/shared/api/storage.ts:10 | `pop` yields a value exactly for a non-empty array. |
| PhotoStorage.Extension | src/shared/api/storage.ts:10 | Definition with no contract of its own. `ExtensionIsLastSegment` and `ExtensionHasNoDot` state its properties. |
| PhotoStorage.UploadPath | src/shared/api/storage.ts:11 | Definition with no contract of its own: `dateKey/timestamp.ext`. `UploadPathSegments` states how it splits. |
| PhotoStorage.PublicUrl | src/shared/api/storage.ts:24-26 | Definition with no contract of its own: the bucket's public URL prefix, "/", then the path. The URL encoding storage-js applies is not modelled. |
| PhotoStorage.ExtensionIsLastSegment | src/shared/api/storage.ts:10 | The extension is the text after the last `.`, or the whole name when there is none. |
| PhotoStorage.ExtensionHasNoDot | src/shared/api/storage.ts:10 | The extension never holds a `.`, and the `'jpg'` fallback is never taken. |
| PhotoStorage.UploadPhoto | src/shared/api/storage.ts:9-28 | A storage error fails the upload with `사진 업로드 실패: ` and the message. Otherwise the upload yields the public URL of `dateKey/timestamp.ext`. |
| PhotoStorage.DeletePhoto | src/shared/api/storage.ts:31-42 | A storage error fails the delete with `사진 삭제 실패: ` and the message. Otherwise the delete removes the path rebuilt from the URL. |
| PhotoStorage.DeletePath | src/shared/api/storage.ts:32-35 | Definition with no contract of its own: the URL's last two `/`-separated segments. `DeleteFindsUploadedPath` and `DeletePathWithoutSlash` state its properties. |
| PhotoStorage.UploadPathSegments | src/shared/api/storage.ts:11 | If the date key and file name hold no `/`, the upload path has exactly two segments: the date key and `timestamp.ext`. |
| PhotoStorage.DeleteFindsUploadedPath | src/shared/api/storage.ts:31-35 | If the date key and file name hold no `/`, the path rebuilt from an upload's public URL is the path the upload stored. |
| PhotoStorage.UploadThenDelete | src/shared/api/storage.ts:5-42 | Deleting by the URL a successful upload returned removes the object that upload stored. |
| PhotoStorage.DeletePathWithoutSlash | src/shared/api/storage.ts:32-35 | A URL without `/` makes the delete remove `undefined/` followed by the URL. |

## Left out

- Environment checks (src/app/api/fortune/today/route.ts:6-19): the module refuses to load without its keys. This is outside what a request does.
- Request body: `req.json()` failing falls back to `{}`, which is modelled as a missing `date`. A body that is the JSON literal `null` parses without error, so the fallback does not apply. Reading `body.date` then throws outside every `try`, and the request ends in an untyped 500 error. The model's `date: Option<string>` cannot express that crash, so it is not modelled. The model's `date` is a string. A truthy non-string `date` (a number, an object) would be used as the key, which is not modelled.
- The clock: the current time is the parameter `nowIso`, the value of `toISOString()`. `FortuneRoute.ClockKeyIsDateKey` covers only the years 1 to 9999. Year 0 is left out because `DateKey` prints it as `0001` (the year of the era, `YearOfEra`), while `toISOString` prints `0000`. Beyond 9999 and below 0, `toISOString` prints a signed six-digit year.
- The language model: the prompt, model name and instructions are not modelled. The reply is an input (`LlmReply`): a response with or without `output_text`, or a thrown error with its message.
- `JSON.parse` is the parameter `parse`, and `None` means it throws. Parsing text is not modelled, so neither is the `parseError` message in `llm_invalid_json`.
- The database: its errors and the `created_at` it assigns are inputs. Column types and the `id = 1` filter are not modelled, and the profile is given as the row found.
- Concurrent requests are not modelled. The only trace of a race is that an insert on a date that already has a row fails, as a unique key on `fortune_date` makes it. `DuplicateKey` stands in for the database's message.
- Answer bodies: the model keeps each answer's kind, its status, its detail where the model has one, and the rejected `parsed` value. It leaves out the fixed Korean `message` texts, the `debug` dump of `llm_empty_output`, `parseError`, and the development-only `stack`.
- `FortuneRoute.Decide`: the message of the `TypeError` for a parsed `null` is written as V8 words it. Other engines word it differently.
- `FortuneRoute.Excerpt` counts characters, where `substring` counts UTF-16 code units. The two differ for text outside the Basic Multilingual Plane.
- `console.log` and `console.error` are left out as output only.
- `lucky_number` in 1 to 99 and one-word colours: the prompt asks for them but the code never checks them, so the model does not either.
- `CalendarDates.GetMonthRange`: the `Date` objects of `getMonthRange` carry times of day: the start at 00:00 and `endOfMonth` at 23:59:59.999, in local time. The model keeps only their calendar dates. Time zones, and `getDay` in local time, are not modelled. The dates are proleptic Gregorian, like JavaScript's.
- `CalendarDates.FirstOfMonth` assumes integer arguments within the `Date` range. Fractional or `NaN` years and months, and years beyond ±275760 (an Invalid Date), are not modelled.
- `formatDateLabel`, `formatMonthLabel` and date.ts's own `getTodayKey` (src/shared/lib/date.ts:4-6, 28-34) are left out. They are labels and the local clock, for display only.
- `CalendarDates.DateKeyFormat`, `CalendarDates.DateKeyOrder` and `CalendarDates.DateKeyInjective` are stated for years of the Common Era (and four digits where order matters). Before year 1, `yyyy` prints the year of the era, so 1 BC and AD 1 share a key.
- `PhotoStorage.UploadPhoto`:
  - the timestamp `Date.now()` and the bucket's public URL prefix are parameters;
  - the file's bytes, `cacheControl` and `upsert: false` are not modelled;
  - the public URL is taken for the requested path, assuming the storage service echoes that path as `data.path`;
  - percent-encoding by `getPublicUrl` is not modelled, so `DeleteFindsUploadedPath` holds for paths that need no encoding.
- PhotoStorage: the storage calls `upload` and `remove` are outside the model, and their errors are inputs. `getPublicUrl` is modelled as `PublicUrl`: the bucket's public URL prefix, "/", then the path. Its `encodeURI` is not modelled.
- CalendarDates.EachDayOfInterval: for an end before the start, date-fns throws a `RangeError` in version 2 and lists the days backwards in version 3. The model returns no days. `getCalendarDays` never builds such an interval.
- CalendarDates.MonthKeyInterval: the `gte`/`lte` comparison of the monthly query (src/entities/fortune/index.ts:39-40) is done by the database, not by JavaScript. The model takes it to be the string order of the keys (`Decimal.Less`), which for four-digit years is calendar order (`DateKeyOrder`) and is also the order of a `date` column. The query's end, `new Date(year, month, 0)`, is proved to be `getMonthRange`'s end (`MonthEndIsDayZero`).
- The data-access modules under src/entities, the React screens, and the Supabase and OpenAI clients are outside this model. Only the calendar screen's `gte`/`lte` month bounds appear, as `CalendarDates.MonthKeyInterval`.
