# Relationship check journal: a verified model

This is a model of a relationship journal. Each entry is classified as a
green flag, a red flag or neutral. The classification first asks remote AI
providers (Gemini, Groq, then Together and Perplexity when their keys are
set), with bounded retries and exponential backoff. When every provider
fails, a local keyword classifier is used instead. The journal also computes
statistics, streaks, a weekly report, a calendar colour per day, time-of-day
patterns, and a weekly goal checklist over its list of entries.

The project has two parts.

- **Journal logic (`src/App.js`).** This part lives in the modules `Text`,
  `Sorting`, `Entries`, `Classifier`, `Journal`, `Goals`, `Streaks` and
  `TimePatterns`.
  - Code built from expressions (`filter`, `map`, spread) becomes pure
    functions and lemmas.
  - Code written as loops becomes methods with loop invariants, each proved
    against a specification function. These are the two loops of
    `getStreaks`, the in-place `reverse`, and the hour tally and the
    best/worst hour scan of `getTimePatterns`.
  - Code that builds a result by successive assignments and pushes, without
    a loop, becomes a method with that sequence of steps: the insight list of
    `getTimePatterns` and the report of `generateWeeklyReport`.
- **Provider service (`src/services/aiService.js`).** This part is split in
  two modules.
  - `Providers` holds the provider-independent rules as pure functions: what
    a response turns into, which errors are retryable, the retry run
    `RetryRun` and the fallback chain `ChainRun`.
  - `AiService` holds the class `OptimizedAIService`. Its provider table is
    built from the four API keys, and its methods mirror the source's
    methods: retry by recursion, the chain as a loop over the additional
    providers. Each analysis method is proved equal to the pure run it
    implements. `TestProvider` is specified by the outcome of that run: its
    report is derived from the run's result.

The network is modelled as an oracle. For a provider name, the entry text and
the attempt number, the oracle gives the response that request received. A
`Run` records what an analysis returned or threw, the requests it made in
order, and the delays it slept.

## Model

| member | source | states |
|---|---|---|
| Text.Lower | src/App.js:36 | lower-casing keeps the length, turns each ASCII capital into its small letter, keeps every other character, and so leaves no ASCII capital |
| Text.Contains | src/App.js:53-54 | the empty pattern occurs in every text, and a pattern that occurs is no longer than the text |
| Text.IsBlank | src/App.js:108 | the empty text is blank, and a text holding a letter or a digit is not |
| Text.LowerChar | src/App.js:36 | `toLowerCase` on one character: an ASCII capital becomes its small letter, every other character is unchanged |
| Text.LowerIdempotent | src/App.js:36 | lower-casing keeps the length and is idempotent |
| Text.LowerConcat | src/App.js:36 | lower-casing distributes over concatenation |
| Text.ContainsExtended | src/App.js:53-54 | a substring match survives text added before and after |
| Text.MissingCharNotContained | src/App.js:53-54 | a pattern holding a character the text lacks does not occur in it |
| Text.NatToString | src/App.js:286 | the decimal rendering of a count in a template literal is non-empty and all digits, has one digit exactly below ten, and starts with "0" only for zero |
| Text.NatToStringRoundTrip | src/App.js:286 | parsing the decimal rendering gives back the number |
| Text.NatToStringInjective | src/App.js:286 | different counts render differently |
| Sorting.SortBy | src/App.js:172 | `sort` with a key comparator: the result is ordered by the key and is a permutation of the input |
| Sorting.SortByMembers | src/services/aiService.js:437 | sorting keeps exactly the same members |
| Sorting.SortBySorted | src/services/aiService.js:472 | sorting an already ordered list returns it unchanged |
| Sorting.ReversedAt | src/App.js:196 | position k of the reversal holds position n-1-k of the original |
| Sorting.ReversedMultiset | src/App.js:196 | reversing is a permutation |
| Sorting.Reverse | src/App.js:196 | the in-place `reverse()` leaves the array equal to the reversal of its old contents |
| Entries.ParseFlag | src/App.js:163-165 | every `flag` string reads as exactly one flag, and rendering that flag gives the string back |
| Entries.CountFlag | src/App.js:163-165 | `filter(e => e.analysis.flag === f).length` is at most the number of entries |
| Entries.CountFlagConcat | src/App.js:163-165 | flag counts add up over concatenation |
| Entries.CountFlagPermutation | src/App.js:163-165 | flag counts do not depend on the order of the entries |
| Entries.CountFlagSum | src/App.js:162-167 | the three counts sum to at most the total, and to exactly the total iff every flag is red, green or neutral |
| Classifier.HitCount | src/App.js:53-54 | the number of matching patterns is at most the list length, and positive iff some pattern occurs |
| Classifier.LocalAnalyze | src/App.js:32-95 | any red pattern gives the red template; otherwise any green pattern gives the green template; otherwise the neutral template; with 4, 3 and 2 suggestions |
| Classifier.RedPrecedence | src/App.js:53-79 | once a red pattern occurs, any surrounding text (however many green patterns) still classifies red |
| Classifier.HitInsideWhite | src/App.js:39-44 | substring matching makes "White" red, through "hit" |
| Classifier.LieInsideBelieve | src/App.js:39-44 | substring matching makes "I believe you" red, through "lie" |
| Classifier.DateInsideUpdate | src/App.js:47-51 | "Update" matches no red pattern but matches the green "date", so it classifies green |
| Classifier.AnalyzeEntry | src/App.js:97-105 | a remote result is used as is; when the remote call throws, the keyword classifier's result is used, whose flag is always one of the three |
| Journal.Submit | src/App.js:107-134 | blank text changes nothing; otherwise the new entry, with the text, its analysis, the id, the timestamp, the date, the time and the hour, is put in front of the unchanged old list |
| Journal.GetStats | src/App.js:162-167 | total is the number of entries; the counts sum to at most the total, and to the total iff every flag is known |
| Journal.SubmitStats | src/App.js:125 | submitting adds one to the total and one to the count of the new entry's flag only |
| Journal.SubmitKeepsStatsSum | src/App.js:97-105 | a submission that falls back on the classifier keeps the counts summing to the total |
| Journal.GetDayColor | src/App.js:355-363 | transparent iff no entries; red iff more red than green; green iff more green than red; neutral on a tie |
| Journal.DayColorOrderIndependent | src/App.js:355-363 | the colour does not depend on the order of the day's entries |
| Journal.DayColorIgnoresOtherFlags | src/App.js:355-363 | adding a neutral entry to a non-empty day leaves its colour alone |
| Journal.InWindow | src/App.js:270 | exactly the entries with a timestamp not before the start of the week are kept |
| Journal.InWindowMultiset | src/App.js:270 | every copy of an entry in the window is kept and every copy of an older one is dropped |
| Journal.GenerateWeeklyReport | src/App.js:266-307 | an empty week gives the reminder report without statistics; otherwise the report carries the week's statistics, the summary opens with the entry count, the trend is positive, concerning or neutral exactly as green beats red, red beats green, or they tie; the summary is the opening followed by the positive, concerning or mixed sentence of that trend; there are always two insights, fixed for each of the three trends |
| Goals.InitialGoals | src/App.js:18-22 | three goals, ids 1 to 3, none completed, all in the current week |
| Goals.ToggleGoal | src/App.js:309-313 | same length; ids, texts and weeks unchanged; `completed` changes exactly for the goals with that id |
| Goals.ToggleTwice | src/App.js:309-313 | toggling twice restores the list |
| Goals.ToggleUnknownId | src/App.js:309-313 | toggling an id no goal has changes nothing |
| Goals.AddGoal | src/App.js:315-323 | the list gains one uncompleted goal at the end with the given text, id and week; the old goals are unchanged |
| Goals.ToggleAddedGoal | src/App.js:309-323 | a goal added under a fresh id can be ticked without touching the earlier goals |
| Streaks.NewestFirst | src/App.js:172 | the entries in descending timestamp order, as a permutation of the list |
| Streaks.LeadingRun | src/App.js:175-188 | the leading run is a run of the flag, and the entry after it has another flag |
| Streaks.LeadingRunExact | src/App.js:178-188 | any run from the front that stops at the end or at another flag is the leading run |
| Streaks.RunStep | src/App.js:196-210 | one step of the running counters keeps "current run ending here" and "longest run so far" true |
| Streaks.CurrentStreaks | src/App.js:175-188 | the first loop yields the leading green and red runs of the newest-first list, at most one of them non-zero |
| Streaks.LongestStreaks | src/App.js:191-210 | the second loop yields the longest green and the longest red run of the array |
| Streaks.CurrentWithinLongest | src/App.js:169-216 | the current streak is at most the longest streak of the same flag |
| Streaks.LongestWithinCount | src/App.js:191-210 | a longest run is at most the number of entries with that flag |
| Streaks.ReorderedCount | src/App.js:172-196 | sorting then reversing keeps every flag count |
| Streaks.GetStreaks | src/App.js:169-216 | all zero when there are no entries; current streaks are the leading runs newest first, at most one non-zero; longest streaks are the longest runs oldest first; each current streak is within its longest one, which is within its flag count |
| TimePatterns.Tally | src/App.js:378-385 | an entry at the bucket's hour adds one to its flag's count and one to the total, or two when its flag is the string "total" (the dynamic `[flag]++` then hits the total field again); any other entry changes nothing |
| TimePatterns.BucketBounds | src/App.js:378-385 | a bucket's three flag counts add up to at most its total, which is at most the number of entries plus the number flagged "total" |
| TimePatterns.Filter | src/App.js:429-430 | `filter` keeps exactly the entries satisfying the predicate |
| TimePatterns.FilterMultiset | src/App.js:429-430 | `filter` keeps every copy of a kept entry and drops every copy of the others |
| TimePatterns.BucketCounts | src/App.js:378-385 | an hour's bucket counts exactly the entries at that hour, per flag, and in total with those flagged "total" counted twice |
| TimePatterns.BucketsPartition | src/App.js:378-385 | the 24 bucket totals add up to the number of entries that carry an hour, those flagged "total" counted twice |
| TimePatterns.CountByHour | src/App.js:368-385 | the tally loop yields, for each of the 24 hours, the bucket counted over all entries, including the second increment of the total for the flag "total" |
| TimePatterns.LeaderUnique | src/App.js:393-409 | at most one hour leads on each side |
| TimePatterns.SelectHours | src/App.js:387-409 | the scan finds no hour iff no hour with at least two entries has a positive ratio; otherwise it finds the hour with the highest ratio, the earliest on ties |
| TimePatterns.StrongLeaderOf | src/App.js:421-427 | the scan's result passes the threshold exactly when the leading hour does |
| TimePatterns.DisplayHour | src/App.js:414 | the displayed hour is within 1..12 and agrees with the hour modulo 12 |
| TimePatterns.AmPm | src/App.js:413 | "AM" exactly before noon, "PM" exactly from noon on |
| TimePatterns.FormatHour | src/App.js:411-416 | "Not enough data" exactly for no hour; otherwise the display hour's digits without a leading zero, then ":00 ", then "AM" or "PM" |
| TimePatterns.FormatHourInjective | src/App.js:411-416 | different hours format differently |
| TimePatterns.FormatHourTwelve | src/App.js:414 | midnight formats as "12:00 AM" and noon as "12:00 PM" |
| TimePatterns.FormatHourSingleDigit | src/App.js:414 | 13 formats as "1:00 PM" and 9 as "9:00 AM" |
| TimePatterns.BetterByAsymmetric | src/App.js:436-440 | two groups cannot each beat the other by more than 0.2 |
| TimePatterns.ComparisonsExclusive | src/App.js:436-462 | neither comparison names both of its groups as the winner |
| TimePatterns.InsightLengths | src/App.js:421-468 | the lengths of the insight lines: 47-48 for a best hour, 41-42 for a worst hour, 53, 49, 44, 36 and 44 for the fixed lines |
| TimePatterns.FixedLinesDistinct | src/App.js:429-468 | the four comparison lines and the default line are pairwise different |
| TimePatterns.LeaderLinesNotFixed | src/App.js:421-427 | an hour line is no fixed line, and no best-hour line is a worst-hour line |
| TimePatterns.LeaderLinesInjective | src/App.js:421-427 | the best-hour line and the worst-hour line each determine their hour |
| TimePatterns.BestLineIn | src/App.js:421-423 | the best-hour line of an hour is among the hour lines exactly when that hour is the strong best hour |
| TimePatterns.WorstLineIn | src/App.js:425-427 | the worst-hour line of an hour is among the hour lines exactly when that hour is the strong worst hour |
| TimePatterns.LeaderInsights | src/App.js:419-427 | one line per strong side: the best-hour line, first, exactly when the best hour is over 60% green; the worst-hour line, last, exactly when the worst hour is over half red; each names its own hour and no other |
| TimePatterns.ComparisonInsights | src/App.js:429-463 | one line per comparison that has a winner: the morning line iff mornings win by more than 0.2, the evening line iff evenings do, then the weekend line iff weekends win (with at least ten entries), the weekday line iff weekdays do |
| TimePatterns.HourLinesOf | src/App.js:387-427 | the hour lines, restated over the buckets: a line for exactly the leading hour of each side that passes its threshold |
| TimePatterns.InsightsOfParts | src/App.js:419-468 | the hour lines followed by the comparison lines, or the default line alone when both are empty, are the insights the rules call for |
| TimePatterns.HourLinesMembership | src/App.js:419-427 | a best-hour (worst-hour) line is among the insights exactly for the leading hour, when it passes the threshold |
| TimePatterns.ComparisonLinesMembership | src/App.js:429-463 | each comparison line is among the insights exactly when its group wins |
| TimePatterns.DefaultLineMembership | src/App.js:466-468 | the default line is among the insights exactly when no rule fires |
| TimePatterns.GetTimePatterns | src/App.js:365-470 | null iff there are no entries; best and worst times are the leading hours or "Not enough data"; the insights are the lines of the rules that fire, in order: best hour, worst hour, morning or evening, weekend or weekday, or the default line alone when none fires |
| Providers.Tag | src/services/aiService.js:151-155 | the tagged result keeps the reply's flag, title, message and suggestions, carries the provider's name, and never has confidence zero |
| Providers.HttpErrorMessage | src/services/aiService.js:120-125 | every error message for a non-OK status names the status |
| Providers.AttemptOutcome | src/services/aiService.js:116-155 | only a parsed reply succeeds, tagged with the provider; a validating provider rejects a reply without flag, title or message as "Invalid response structure"; a thrown error is passed on; an HTTP error names its status |
| Providers.RetryableIgnoresCase | src/services/aiService.js:53-66 | the retry test ignores case: a message and its lower-cased form are retried alike |
| Providers.TemporaryIsRetryable | src/services/aiService.js:53-66 | the error for status 429, 500, 502, 503 or 504 is retryable |
| Providers.FailedFetchIsRetryable | src/services/aiService.js:53-66 | a failed `fetch` is retryable |
| Providers.InvalidStructureNotRetryable | src/services/aiService.js:53-66 | Gemini's "Invalid response structure" error is not retryable |
| Providers.RetryDisabled | src/services/aiService.js:72-74 | a provider without a key fails with its "not configured" error and makes no request |
| Providers.RetryLast | src/services/aiService.js:158-169 | with no retries left, exactly one request is made and its outcome is the result |
| Providers.RetryCalls | src/services/aiService.js:158-169 | the requests are attempts k, k+1, … of this provider, at most the remaining budget plus one |
| Providers.RetryDelays | src/services/aiService.js:158-163 | one delay between each two requests, the i-th being retryDelay·2^(k+i) |
| Providers.RetryStops | src/services/aiService.js:158-169 | every attempt before the last failed retryably within budget; the result is the last attempt's outcome; a failure is non-retryable or out of budget |
| Providers.RetryShape | src/services/aiService.js:69-171 | the whole course of a retry run: its requests, its delays and why it stopped |
| Providers.RetryExhausts | src/services/aiService.js:158-169 | when all attempts fail retryably, exactly maxRetries-k+1 requests are made and the last error is thrown |
| Providers.SuccessTagged | src/services/aiService.js:144-155 | a success is the tagged reply of the last attempt; Gemini's has a non-empty flag, title and message |
| Providers.TagConfidence | src/services/aiService.js:151-155 | the confidence is the reply's own unless it is missing or zero, in which case it is 0.8 |
| Providers.ChainRun | src/services/aiService.js:413-466 | a failed chain always fails with "All AI providers failed - will fall back to local analysis" |
| Providers.ChainCons | src/services/aiService.js:413-466 | the chain on a first provider stops at its success and otherwise continues with the rest |
| Providers.ChainFirstSuccess | src/services/aiService.js:413-466 | the first provider to succeed supplies the result, and only it and the providers before it were asked |
| Providers.ChainAllFail | src/services/aiService.js:459-465 | the chain fails iff every provider fails, and then with its own message after asking every provider |
| AiService.TableRows | src/services/aiService.js:4-42 | the table lists Gemini, Groq, Together and Perplexity with priorities 1 to 4, each enabled exactly when its key is set |
| AiService.FindSpec | src/services/aiService.js:483-484 | `find` returns a provider of that name with none before it, and nothing exactly when no provider has that name |
| AiService.TableEnabled | src/services/aiService.js:4-42 | each table row is enabled exactly when its key is set |
| AiService.SelectMembers | src/services/aiService.js:435-436 | `filter` keeps exactly the rows satisfying the predicate |
| AiService.SelectMultiset | src/services/aiService.js:435-436 | `filter` keeps every copy of a kept row and drops every copy of the others |
| AiService.TableSelect | src/services/aiService.js:435-436 | filtering the table keeps the rows that pass, in table order |
| AiService.ExtraTable | src/services/aiService.js:434-437 | the enabled additional rows are Together, then Perplexity, each present when its key is set |
| AiService.AvailableListings | src/services/aiService.js:469-479 | the listings are in ascending priority, are exactly those of the enabled providers, and are as many as the enabled providers |
| AiService.OptimizedAIService.PoliciesFollowKeys | src/services/aiService.js:4-42 | each provider's analysis is enabled exactly when its key is set |
| AiService.OptimizedAIService.AnalyzeWithGemini | src/services/aiService.js:69-171 | the method's run is the retry run with Gemini's budget of three retries |
| AiService.OptimizedAIService.AnalyzeWithGroq | src/services/aiService.js:174-259 | the method's run is the retry run with Groq's budget of two retries |
| AiService.OptimizedAIService.AnalyzeWithTogether | src/services/aiService.js:262-336 | a single attempt with no delay |
| AiService.OptimizedAIService.AnalyzeWithPerplexity | src/services/aiService.js:339-410 | a single attempt with no delay |
| AiService.OptimizedAIService.AttemptBounds | src/services/aiService.js:44-45 | Gemini makes at most four requests and Groq at most three |
| AiService.OptimizedAIService.GeminiSchedule | src/services/aiService.js:160-165 | when every attempt fails retryably, Gemini makes four requests and sleeps 1000, 2000 and 4000 ms |
| AiService.OptimizedAIService.GroqSchedule | src/services/aiService.js:248-253 | when every attempt fails retryably, Groq makes three requests and sleeps 1000 and 2000 ms |
| AiService.OptimizedAIService.ChainOrder | src/services/aiService.js:413-457 | providers are tried as Gemini, Groq, then Together if its key is set, then Perplexity if its key is set |
| AiService.OptimizedAIService.ChainUnfold | src/services/aiService.js:413-431 | the chain is Gemini's run, then Groq's if Gemini failed, then the additional providers if both failed |
| AiService.OptimizedAIService.AnalyzeRelationshipEntry | src/services/aiService.js:413-466 | the method's run is the fallback chain over that order |
| AiService.OptimizedAIService.GetAvailableProviders | src/services/aiService.js:469-479 | exactly the enabled providers, in ascending priority, one listing per set key |
| AiService.OptimizedAIService.GetProviderStatus | src/services/aiService.js:481-488 | primary and backup follow the Gemini and Groq keys; the total counts the set keys; the recommended count includes only Gemini and Groq |
| AiService.OptimizedAIService.TestProvider | src/services/aiService.js:490-528 | reports success exactly when that provider's run succeeds, with its status label; any failure gives the run's error; an unknown name gives "Unknown provider" |

## Left out

- I/O is not modelled. This covers `fetch`, HTTP headers, prompts and the
  parsing of response bodies (the `candidates`/`choices` paths, the JSON
  regex, `JSON.parse`). The network oracle returns an already classified
  `Response`: an HTTP error status with its body, a parsed reply, or a thrown
  message.
- `sleep` is not modelled as time. Only the delays it would be given are
  recorded.
- Console logging is left out.
- React state, rendering, theming, tabs, the calendar grid, export and
  `localStorage` are left out.
- Clocks are supplied by the caller. `Date.now()`, the locale date and time
  strings and `getHours()` come in as a `Clock`; the start of the week comes
  in as `oneWeekAgo`. `getCurrentWeek` is also supplied: the current week is
  a parameter of `InitialGoals` and `AddGoal`.
- The weekday of a timestamp (`new Date(timestamp).getDay()`) is a caller
  parameter, `dayOf`.
- The simulated 2-second delay of `localAnalyzeEntry` is left out.
- The `hourFlags` table of `getTimePatterns` is left out. It is filled but
  never read.
- `TestProvider`: the measured `responseTime` is left out, because it comes
  from the clock.
- `Text.LowerChar`: lower-cases ASCII letters only. The source's
  `toLowerCase` also maps non-ASCII characters, and some of those map onto
  ASCII. U+212A KELVIN SIGN becomes "k", so "Than\u212As" contains "thanks"
  in the source (green) but not in the model (neutral). U+0130 becomes "i"
  followed by U+0307, so "apolog\u0130" contains "apologi" in the source but
  not in the model.
- The ratio thresholds of `getTimePatterns` are stated without floating
  point. The comparisons (greater than 0.6, greater than 0.5, more than 0.2
  apart) are restated as exact integer cross-multiplications, so rounding
  effects of floating point are not modelled.
- `Providers.Tag`: the reply's `color`, `icon` and any other field the
  response carries, which `...result` copies into the result, are not
  carried; the result holds only flag, title, message, suggestions,
  confidence and provider.
- `Providers.Tag`: a `confidence` that is present but is neither a number
  nor zero (a non-empty string, say) is treated as missing, so the model
  gives it 0.8.
- `AiService.Find`: the source would throw a `TypeError` when a provider is
  missing from its table. Every provider is present in the fixed table, so
  the model treats a missing one as disabled.
- `Sorting.SortBy`: sort stability is not proved. It is an insertion sort,
  stable by construction, but the contract states only order and
  permutation. The entry timestamps and the provider priorities used as keys
  are distinct in practice.
- `Providers.NotConfigured`: the "API key not configured" message is built
  as the provider's display name plus a fixed suffix. The result is the same
  text the source throws.
- `src/services/gemini.js` and `src/services/openai.js` are not part of this
  model.
