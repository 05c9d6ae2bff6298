# ChronoArcana daily-pull logic in Dafny

ChronoArcana is a tarot journal. Once a day a user draws a card: a digital pull chosen at random, or a physical pull picked from a searchable list. The app keeps the history of these pulls. It shows them on a calendar and in charts, counts down the retention window of a free account, and exports the history as CSV.

This project models the data logic under the React and Supabase layers and proves what that logic promises:

- **Helpers** (`src/utils/helpers.ts`): today's date key; the random card pick; the retention countdown; the "pulled today" test; the most-pulled card.
- **GraphData** (`src/hooks/useGraphData.ts`):
  - the timeframe filter;
  - the per-card tallies with rounded percentages, sorted by count;
  - the top-ten chart;
  - the summary statistics.
- **CsvExport** (`src/lib/api-analytics.ts`): the CSV text of an export.
- **TarotPulls** (`src/hooks/useTarotPulls.ts`):
  - the three-way "needs a pull" decision;
  - the record of a new pull;
  - the hook's state as a `PullsHook` class: create a pull, edit notes, refresh, and the day-change check.
- **Api** (`src/lib/api.ts`):
  - the `YYYY-MM-DD` day key;
  - the pull API's guards and store calls, as a `Store` class that logs every request it sends.
- **Calendar** (`src/components/dashboard/InteractiveCalendar.tsx`):
  - the grouping of pulls by day, built in place by a loop;
  - the per-day indicator dots;
  - the click guard;
  - the month counters.
- **CardSelector** (`src/components/daily_pull/PhysicalCardSelector.tsx`): the case-insensitive card search, and the modal state as a `Selector` class.
- **UpgradePrompt** (`src/components/dashboard/UpgradePrompt.tsx`): the urgency levels, the heading, the message and the width of the progress bar.
- **AuthForms** (`src/components/auth/AuthForms.tsx`): the form's validation record, built field by field in `AuthForm.ValidateForm`, and the mapping of error messages.
- **StripeWebhook** (`src/app/api/webhooks/stripe/route.ts`): the subscription-status change for each event type, applied in place to the matching user rows of a `UserTable`.
- **Shared modules:**
  - **Records**: the value types.
  - **Seqs**: `filter`, `some`, counting, and the ascending key order of `Object.keys` / `Object.entries` / `Object.values` on integer keys.
  - **Text**: `String(n)`, `padStart`, `join`, `split`, `includes`, ASCII `toLowerCase` and `trim`.

How the outside world becomes inputs:

- A clock reading is an ISO 8601 timestamp string (for `toISOString`), integer milliseconds (for `getTime`), or year/month/day numbers (for the local getters).
- `Math.random()` is a real number in [0, 1).
- What a store call resolves to is a method parameter.
- A thrown value is either an `Error` with a message (`Thrown`) or a store error object passed on as it came (`Rejected`). This choice decides every `err instanceof Error ? err.message : fallback` in the source.

## Model

| member | source | states |
|---|---|---|
| Records.PullTypeName | src/types/index.ts:41 | the stored pull type is 'digital' exactly for digital pulls, otherwise 'physical' |
| Records.OrEmpty | src/lib/api-analytics.ts:55 | `s \|\| ''`: a truthy string is kept; an absent or empty one gives '' |
| Records.ErrorText | src/hooks/useTarotPulls.ts:39 | `err instanceof Error ? err.message : fallback`: an Error gives its message, anything else the fallback |
| Seqs.Filter | src/hooks/useGraphData.ts:31 | `filter` keeps exactly the elements the predicate accepts and is never longer than its input |
| Seqs.FilterCount | src/hooks/useGraphData.ts:31 | a filter keeps each accepted element as many times as the input holds it, and no rejected one |
| Seqs.FilterIsSublist | src/hooks/useGraphData.ts:31 | the result of a filter is an order-preserving sub-list of its input |
| Seqs.FilterAppend | src/components/dashboard/InteractiveCalendar.tsx:34-40 | filtering a concatenation is concatenating the filters, so elements keep their relative order |
| Seqs.Any | src/utils/helpers.ts:46 | `some` holds iff some element satisfies the predicate |
| Seqs.CountIf | src/components/dashboard/InteractiveCalendar.tsx:101-104 | `filter(..).length` is at most the length; it is positive iff `some` holds |
| Seqs.AscendingKeys | src/utils/helpers.ts:58 | the integer keys of a record, each once, in strictly ascending order (the enumeration order of `Object.entries`/`Object.values`) |
| Text.NatToString | src/lib/api.ts:205-206 | `String(n)`: decimal digits with no leading zero that read back as `n` |
| Text.PadStart | src/lib/api.ts:205-206 | `padStart`: a string already wide enough is unchanged; otherwise it is filled on the left to the width and ends with the original |
| Text.SplitJoin | src/lib/api-analytics.ts:59-62 | splitting a join at its one-character separator gives the parts back, when no part contains it |
| Text.ToLower | src/components/daily_pull/PhysicalCardSelector.tsx:42-44 | `toLowerCase` keeps the length and lowers each letter A-Z |
| Text.ToLowerIdempotent | src/components/daily_pull/PhysicalCardSelector.tsx:42-44 | lower-casing twice is lower-casing once |
| Text.Trim | src/lib/api.ts:348 | `trim`: the result is the part of the input from its first non-space character; everything cut after it is white space; the result neither starts nor ends with white space |
| Text.TrimIdempotent | src/lib/api.ts:348 | trimming a trimmed string changes nothing |
| Helpers.TodayDate | src/utils/helpers.ts:22-25 | `split('T')[0]`: the longest prefix with no 'T', which is followed by a 'T' when it is not the whole string |
| Helpers.RandomIndex | src/utils/helpers.ts:29 | `Math.floor(r * n)` for r in [0, 1) is a valid index of a non-empty list |
| Helpers.SelectRandomCard | src/utils/helpers.ts:28-31 | the pick is an element of the list; it is undefined exactly for an empty list |
| Helpers.EveryCardCanBeDrawn | src/utils/helpers.ts:28-31 | every index is reached by some draw r = i/n, so every card can come up |
| Helpers.DaysUntilRetention | src/utils/helpers.ts:34-41 | the ceiling of the time left divided by one day, never negative; 0 exactly when the window has passed |
| Helpers.RetentionAtSignup | src/utils/helpers.ts:34-41 | at the signup instant the countdown equals the retention days |
| Helpers.RetentionNonIncreasing | src/utils/helpers.ts:34-41 | the countdown never rises as time advances |
| Helpers.HasPulledToday | src/utils/helpers.ts:44-47 | true iff some pull's date equals today's key |
| Helpers.Occurrences | src/utils/helpers.ts:53-56 | the number of pulls of a card never exceeds the number of pulls |
| Helpers.CardCounts | src/utils/helpers.ts:53-56 | the count record has a key exactly for each drawn card, holding its number of pulls |
| Helpers.EntriesShape | src/utils/helpers.ts:58 | `Object.entries` of the counts lists ids in ascending order, each with its true count |
| Helpers.PickMostSpec | src/utils/helpers.ts:58-60 | over ascending ids, the strict-`>` fold returns a largest count and the smallest id among the ties |
| Helpers.MostPulledFold | src/utils/helpers.ts:53-60 | on a non-empty history the two folds give a positive count, equal to the card's pulls, never exceeded, with the smallest id on ties |
| Helpers.MostPulledCard | src/utils/helpers.ts:50-63 | null exactly for an empty history; otherwise a card with its true count, which no card exceeds; on ties the smallest id wins |
| GraphData.FilteredPulls | src/hooks/useGraphData.ts:13-32 | empty input gives empty output; 'all' returns the input; 'month'/'year' give the order-preserving sub-list of pulls at or after the cut-off, with each such pull as often as in the input and no other pull |
| GraphData.RoundHalfUp | src/hooks/useGraphData.ts:55 | `Math.round(a / b)` for non-negative fractions: the nearest integer, halves rounded up |
| GraphData.Percentage | src/hooks/useGraphData.ts:55 | the rounded percentage of a count within its total is at most 100 |
| GraphData.LastWith | src/hooks/useGraphData.ts:39-44 | the pull whose card name ends up in the tally is one of the card's pulls |
| GraphData.Tallies | src/hooks/useGraphData.ts:38-46 | one tally per drawn card, holding its id, its number of pulls and the name of its last pull ('Unknown Card' when the card is missing) |
| GraphData.StatsFor | src/hooks/useGraphData.ts:50-56 | the `map` step keeps the key order and adds each tally's percentage |
| GraphData.InsertByCount | src/hooks/useGraphData.ts:57 | one insertion step of the stable sort adds exactly the inserted element |
| GraphData.SortByCount | src/hooks/useGraphData.ts:57 | the sort is a permutation of its input |
| GraphData.InsertKeepsRanked | src/hooks/useGraphData.ts:57 | inserting an entry with a larger id keeps the order: counts non-increasing, ties by ascending id |
| GraphData.SortRanks | src/hooks/useGraphData.ts:50-57 | sorting entries in ascending id order (from `Object.values`) gives counts non-increasing, ties by ascending id, which is what a stable sort does |
| GraphData.Analytics | src/hooks/useGraphData.ts:35-58 | the analytics are empty iff there are no pulls |
| GraphData.UnsortedFaithful | src/hooks/useGraphData.ts:38-56 | before sorting, every entry tells the truth about its card and the ids strictly ascend |
| GraphData.UnsortedCovers | src/hooks/useGraphData.ts:38-56 | before sorting, every drawn card has an entry |
| GraphData.SumCountsSort | src/hooks/useGraphData.ts:57 | sorting keeps the sum of the counts |
| GraphData.CountInAll | src/hooks/useGraphData.ts:38-48 | the pulls counted over all drawn card ids are all the pulls |
| GraphData.UnsortedSum | src/hooks/useGraphData.ts:38-48 | the counts of the tallies add up to the number of filtered pulls |
| GraphData.SortedFaithful | src/hooks/useGraphData.ts:50-57 | after sorting, every entry still tells the truth about its card |
| GraphData.PermutedFaithful | src/hooks/useGraphData.ts:57 | any rearrangement of truthful entries is truthful |
| GraphData.SortedCovers | src/hooks/useGraphData.ts:50-57 | after sorting, every drawn card still has an entry |
| GraphData.AnalyticsSpec | src/hooks/useGraphData.ts:35-58 | one entry per distinct card id; each count at least 1 and equal to the card's pulls; each percentage the rounded share and at most 100; counts sum to the number of pulls; counts non-increasing, ties by ascending id |
| GraphData.Chart | src/hooks/useGraphData.ts:61-80 | labels and data have min(10, entries) items matching the analytics prefix index by index; each colour list has one item per palette colour |
| GraphData.SummaryStats | src/hooks/useGraphData.ts:83-96 | null iff there are no entries; otherwise the first entry, the number of pulls, the number of entries, and the average in tenths rounded half up |
| GraphData.UseGraphData | src/hooks/useGraphData.ts:5-105 | analytics come from the filtered pulls; the chart data are built from those analytics and the summary from those analytics and pulls; `hasData` iff the filter kept a pull, iff there is a summary; `loading` stays false |
| GraphData.SummaryAgreesWithMostPulled | src/hooks/useGraphData.ts:86 | the summary's most-pulled entry is the card `getMostPulledCard` picks, with the same count |
| GraphData.ExampleTwoCards | src/hooks/useGraphData.ts:35-96 | two pulls of card 1 and one of card 2 give card 1 first with 67%, then card 2 with 33%, two unique cards and an average of 1.5 |
| CsvExport.HeaderLineIsJoin | src/lib/api-analytics.ts:48-60 | joining the seven column names with commas gives `Date,Card Name,Suit,Pull Type,Reversed,Notes,Keywords` |
| CsvExport.HeaderLineHasNoNewline | src/lib/api-analytics.ts:48-60 | the header line contains no line break |
| CsvExport.Fields | src/lib/api-analytics.ts:49-57 | seven fields: the date, the card's name, the card's suit, the pull type, Yes iff reversed (No otherwise), the notes, the card's keywords; a missing card, suit, keywords or note gives an empty field |
| CsvExport.Quote | src/lib/api-analytics.ts:61 | a field is wrapped in double quotes with its text verbatim, embedded quotes not doubled |
| CsvExport.QuoteAll | src/lib/api-analytics.ts:61 | every field of a row is quoted, in order |
| CsvExport.Lines | src/lib/api-analytics.ts:59-62 | the header line, then exactly one row per pull in input order; missing data gives the header alone |
| CsvExport.ExportUserData | src/lib/api-analytics.ts:45-64 | a store error is thrown; otherwise the CSV text |
| CsvExport.HeaderOnly | src/lib/api-analytics.ts:59-62 | no data, or no pulls, gives exactly the header line |
| CsvExport.AppendRow | src/lib/api-analytics.ts:59-62 | one more pull appends a newline and its row at the end |
| CsvExport.StartsWithHeader | src/lib/api-analytics.ts:59-62 | the text starts with the header line; it is only the header iff there are no pulls, and otherwise a newline follows it |
| CsvExport.RowHasNoNewline | src/lib/api-analytics.ts:61 | a row of fields without line breaks has none |
| CsvExport.SplitLines | src/lib/api-analytics.ts:59-62 | when no field holds a line break, splitting the text at newlines gives back the header and the rows |
| CsvExport.RowTextCons | src/lib/api-analytics.ts:61 | a row is its first quoted field, a comma and the rest of the row |
| TarotPulls.NeedsTodayPull | src/hooks/useTarotPulls.ts:15-30 | a pull is needed iff today's pull is absent; then exactly one of new-day and first-time holds, new-day iff there are recent pulls; otherwise all flags are false |
| TarotPulls.PullRecord | src/hooks/useTarotPulls.ts:57-64 | the new pull's record has the user, card and type; today's date key; the notes or ''; and is never reversed |
| TarotPulls.RecordedPullIsToday | src/hooks/useTarotPulls.ts:60 | once a pull with that record's date is in the history, `hasPulledToday` holds for the same clock reading |
| TarotPulls.ReplaceById | src/hooks/useTarotPulls.ts:102-104 | the recent pulls keep their length after a notes edit |
| TarotPulls.ReplaceByIdAt | src/hooks/useTarotPulls.ts:102-104 | entries with the edited id become the updated pull; every other entry is unchanged in place |
| TarotPulls.ReplaceByIdIdempotent | src/hooks/useTarotPulls.ts:102-104 | applying the same edit twice is applying it once |
| TarotPulls.ReplaceByIdAbsent | src/hooks/useTarotPulls.ts:102-104 | a list without the edited id is unchanged |
| TarotPulls.ReplaceToday | src/hooks/useTarotPulls.ts:98-100 | today's pull is replaced only when its id equals the edited id |
| TarotPulls.PullsHook.constructor | src/hooks/useTarotPulls.ts:8-12 | the initial state: no pulls, loading, no error |
| TarotPulls.PullsHook.FetchTodaysPull | src/hooks/useTarotPulls.ts:32-41 | without a user nothing changes; a fetched pull becomes today's pull; a failure sets the error text and leaves the pull |
| TarotPulls.PullsHook.FetchRecentPulls | src/hooks/useTarotPulls.ts:43-52 | the same for the recent pulls |
| TarotPulls.PullsHook.Refresh | src/hooks/useTarotPulls.ts:114-119 | without a user nothing changes; otherwise both fetches are applied and loading ends false |
| TarotPulls.PullsHook.SetUser | src/hooks/useTarotPulls.ts:134-144 | a signed-in user's data is fetched; signing out clears both pulls |
| TarotPulls.PullsHook.CreatePull | src/hooks/useTarotPulls.ts:54-74 | without a user it throws before any call; otherwise it sends the pull record; a failure is rethrown with its text and changes nothing; a created pull becomes today's pull and the recent pulls are fetched again |
| TarotPulls.PullsHook.UpdatePullNotes | src/hooks/useTarotPulls.ts:76-112 | an empty id throws; a failure is rethrown with its text and the state is unchanged; success replaces today's pull when the ids agree and every recent pull with that id |
| TarotPulls.PullsHook.GetPullNotes | src/hooks/useTarotPulls.ts:122-132 | notes are returned iff there is a user, the id is non-empty and the fetch succeeds; nothing changes |
| TarotPulls.PullsHook.CheckDateChange | src/hooks/useTarotPulls.ts:147-159 | it refreshes iff a user is signed in and the stored day differs from today; it then stores today's key and leaves today's pull, the recent pulls, `loading` and `error` as `refresh` does; otherwise nothing changes |
| TarotPulls.CheckTwiceSameDay | src/hooks/useTarotPulls.ts:150-159 | a second check on the same day refreshes nothing |
| Api.TwoDigitsIsPadStart | src/lib/api.ts:205-206 | the two-digit month and day are `String(n).padStart(2, '0')` |
| Api.DayKeyShape | src/lib/api.ts:204-207 | for any year, the key is the year's digits, a hyphen, the two-digit month (`getMonth() + 1`), a hyphen and the two-digit day |
| Api.DayKeyIsIsoDate | src/lib/api.ts:204-207 | for years 1000 to 9999 the key is the ISO 8601:2004 section 4.1.2.2 extended calendar date `YYYY-MM-DD`, and its digit groups read back as year, month and day |
| Api.DayKeyInjective | src/lib/api.ts:204-207 | different dates give different keys |
| Api.CardRequests | src/lib/api.ts:401-414 | one card lookup per row, by its card id, in row order |
| Api.Store.constructor | src/lib/api.ts:195 | no request has been sent |
| Api.Store.GetTodaysPull | src/lib/api.ts:196-241 | it looks up today's key; a missing row ('PGRST116' or no data) gives null; any other error is passed on; a found pull is joined with its card |
| Api.Store.CreatePull | src/lib/api.ts:243-329 | an auth error, a missing user or a user-id mismatch throws after the user lookup and before any insert; otherwise it inserts, reads back and joins the card, passing on each store error |
| Api.Store.UpdatePullNotes | src/lib/api.ts:331-378 | an empty id is refused before any request; otherwise the trimmed notes are written; an error or a missing row throws its message |
| Api.Store.GetPullNotes | src/lib/api.ts:510-535 | an empty id is refused before any request; an error or a missing row throws its message |
| Api.Store.GetRecentPulls | src/lib/api.ts:380-417 | a store error is passed on; otherwise one entry per row in row order, keeping each row's fields and adding the card looked up for its id |
| Calendar.DayPullsIsFilter | src/components/dashboard/InteractiveCalendar.tsx:34-40 | a day's pulls are the list filtered by that day |
| Calendar.DayPullsEmpty | src/components/dashboard/InteractiveCalendar.tsx:36-38 | a day has no pulls iff no pull is dated on it |
| Calendar.SizeSumPush | src/components/dashboard/InteractiveCalendar.tsx:39 | pushing one pull adds one to the total size of the groups |
| Calendar.PushKeepsGrouping | src/components/dashboard/InteractiveCalendar.tsx:36-39 | one step of the loop keeps every group equal to the pulls seen so far on its day |
| Calendar.PushKeepsTracks | src/components/dashboard/InteractiveCalendar.tsx:36-39 | one step keeps the grouping, the days listed once each, and the sum of group sizes equal to the pulls seen |
| Calendar.PullsByDate | src/components/dashboard/InteractiveCalendar.tsx:32-42 | the loop groups every pull under its day key, each group in input order, with no other groups, and the group sizes add up to the number of pulls |
| Calendar.GroupsAreFilters | src/components/dashboard/InteractiveCalendar.tsx:32-42 | each group is the pull list filtered by its day, so it keeps input order |
| Calendar.EachPullInOneGroup | src/components/dashboard/InteractiveCalendar.tsx:32-42 | every pull lands in the group of its own day and in no other |
| Calendar.PullsForDate | src/components/dashboard/InteractiveCalendar.tsx:50-53 | a day without a group gives an empty list; otherwise its group |
| Calendar.PullsForDateIsFilter | src/components/dashboard/InteractiveCalendar.tsx:50-53 | looking up any day gives the pulls of that day, in order |
| Calendar.PullIndicators | src/components/dashboard/InteractiveCalendar.tsx:56-63 | no indicators for a day without pulls; otherwise each flag holds iff some pull of the day is digital, physical, reversed, or has notes |
| Calendar.IndicatorsShowAType | src/components/dashboard/InteractiveCalendar.tsx:60-61 | a day with pulls always shows a digital or a physical dot |
| Calendar.DateClick | src/components/dashboard/InteractiveCalendar.tsx:84-89 | the callback fires iff the day has pulls and a callback is given, and it receives the day's pulls |
| Calendar.TypesPartition | src/components/dashboard/InteractiveCalendar.tsx:101-102 | digital plus physical pulls are all the pulls |
| Calendar.MonthStatsOf | src/components/dashboard/InteractiveCalendar.tsx:98-107 | the total counts the month's pulls; the digital, physical, reversed and with-notes counters each count exactly the month's pulls with that property; digital plus physical is the total |
| CardSelector.Search | src/components/daily_pull/PhysicalCardSelector.tsx:36-48 | an empty term gives all cards; otherwise an order-preserving sub-list holding exactly the cards whose lowercased name, suit or keywords contain the lowercased term, each as often as in the deck |
| CardSelector.NameOnlyCard | src/components/daily_pull/PhysicalCardSelector.tsx:43-44 | a card without suit and keywords is found only through its name |
| CardSelector.SearchIgnoresCase | src/components/daily_pull/PhysicalCardSelector.tsx:42-44 | searching for a term or for its lower case gives the same cards |
| CardSelector.TypingNarrows | src/components/daily_pull/PhysicalCardSelector.tsx:41-45 | extending a non-empty term only removes cards from the result |
| CardSelector.Selector.constructor | src/components/daily_pull/PhysicalCardSelector.tsx:22-28 | the modal opens with no cards, no selection, an empty term and no error |
| CardSelector.Selector.ApplySearch | src/components/daily_pull/PhysicalCardSelector.tsx:36-48 | the shown cards become the search result; nothing else changes |
| CardSelector.Selector.ResetModal | src/components/daily_pull/PhysicalCardSelector.tsx:80-84 | the selection, the term and the error are cleared; nothing else changes |
| CardSelector.Selector.HandleSavePull | src/components/daily_pull/PhysicalCardSelector.tsx:65-78 | without a selected card nothing happens; otherwise a physical pull of that card is requested; success closes and resets the modal; failure shows the error text; saving ends false |
| UpgradePrompt.VeryUrgentIsUrgent | src/components/dashboard/UpgradePrompt.tsx:14-15 | three days or fewer is also a week or fewer |
| UpgradePrompt.LevelOf | src/components/dashboard/UpgradePrompt.tsx:26-30 | the look is imminent iff very urgent, warning iff urgent only, invitation iff not urgent |
| UpgradePrompt.Heading | src/components/dashboard/UpgradePrompt.tsx:60-65 | 'Data Deletion Imminent!' when very urgent, 'Data Deletion Warning' when only urgent, else 'Unlock Unlimited History' |
| UpgradePrompt.HeadingFollowsUrgency | src/components/dashboard/UpgradePrompt.tsx:60-65 | the heading warns iff the prompt is urgent, and fewer days never soften it |
| UpgradePrompt.Message | src/components/dashboard/UpgradePrompt.tsx:69-75 | the expiry text at 0 days, the singular text at 1 day, otherwise the plural text around the number |
| UpgradePrompt.MessageCarriesDays | src/components/dashboard/UpgradePrompt.tsx:74 | for two or more days the message holds the decimal digits of the number |
| UpgradePrompt.BarWidth | src/components/dashboard/UpgradePrompt.tsx:126 | the bar is never below 5%, is exactly 5% iff at most 3 days remain, and is otherwise days/60 of the width |
| UpgradePrompt.BarWidthMonotone | src/components/dashboard/UpgradePrompt.tsx:126 | more days never give a shorter bar; 60 days fill it |
| AuthForms.FirstError | src/components/auth/AuthForms.tsx:42-54 | the first validator error, or '' when there is none |
| AuthForms.EmailError | src/components/auth/AuthForms.tsx:30-34 | a missing email gives 'Email is required'; otherwise an invalid one gives 'Please enter a valid email' |
| AuthForms.PasswordError | src/components/auth/AuthForms.tsx:37-44 | a missing password is an error in both modes; strength is checked only on sign-up |
| AuthForms.UsernameError | src/components/auth/AuthForms.tsx:49-56 | on sign-up only: 'Username is required', or the first validator error |
| AuthForms.ConfirmError | src/components/auth/AuthForms.tsx:59-63 | on sign-up only: 'Please confirm your password', or 'Passwords do not match' |
| AuthForms.ErrorRecordSpec | src/components/auth/AuthForms.tsx:26-67 | the record holds exactly the fields with an error, each with its message, and is empty iff the form passes |
| AuthForms.SignInChecksTwoFields | src/components/auth/AuthForms.tsx:37-47 | sign-in passes iff the email is present and valid and a password is given, whatever the strength and username validators say |
| AuthForms.MismatchNeverPasses | src/components/auth/AuthForms.tsx:61-62 | a sign-up whose passwords differ never passes |
| AuthForms.AuthErrorMessage | src/components/auth/AuthForms.tsx:92-104 | for an Error the substrings are checked in priority order 'Email not confirmed', 'Invalid login credentials', 'User already registered', else the raw message; a non-Error gives the generic text |
| AuthForms.AuthErrorMessageShown | src/components/auth/AuthForms.tsx:92-104 | the message is one of the four fixed texts or the thrown message |
| AuthForms.AuthForm.constructor | src/components/auth/AuthForms.tsx:19-24 | the form starts empty with no errors |
| AuthForms.AuthForm.ValidateForm | src/components/auth/AuthForms.tsx:26-68 | the error record is rebuilt as the record of the current values, and the result is true iff no error was recorded |
| AuthForms.AuthForm.HandleSubmit | src/components/auth/AuthForms.tsx:70-110 | an invalid form calls nothing; a valid one signs in or signs up with the form's values; a failure leaves only the mapped form error |
| StripeWebhook.ChangeFor | src/app/api/webhooks/stripe/route.ts:31-80 | created/updated with status 'active' gives premium from today's date; with another status nothing; deleted gives free with no start date; any other event nothing |
| StripeWebhook.UpdateMatching | src/app/api/webhooks/stripe/route.ts:38-63 | the update keeps the number of rows |
| StripeWebhook.UpdateMatchingAt | src/app/api/webhooks/stripe/route.ts:44-63 | rows of the customer get the new status and start date; every other row is unchanged |
| StripeWebhook.LaterUpdateWins | src/app/api/webhooks/stripe/route.ts:38-63 | two updates for one customer equal the later one, so a redelivered event changes nothing more |
| StripeWebhook.UserTable.constructor | src/app/api/webhooks/stripe/route.ts:28 | the table holds the given rows |
| StripeWebhook.UserTable.HandleWebhook | src/app/api/webhooks/stripe/route.ts:12-90 | a bad signature gives 400 and changes no row; an event without a change answers `{received: true}` and changes no row; a store throw gives 500 and changes no row; otherwise 200, with exactly the customer's rows updated when the store applies the change and no row changed on a store error |

## Left out

- Supabase: queries, inserts, auth and `rpc` are not modelled. Each store call's reply is a parameter, and the `Store` class only logs the requests it would send. The one-pull-per-user-and-day rule is a database constraint, so it is not assumed.
- Clocks and time zones: `new Date()`, `getTimezoneOffset`, `toISOString`, `isSameMonth` and date-fns `format` are parameters. These are `nowIso`, `cutoffMs`, `instantOf`, `dateKey`, `inMonth`, and the year, month and day of `getTodaysPull`.
  - The local key of `src/lib/api.ts:202-207` and the UTC key of `src/utils/helpers.ts:24` can disagree, and no agreement is claimed.
  - The month and year arithmetic of the cut-off (`setMonth`, `setFullYear`) is not part of this model.
- Floating point:
  - `Math.round(count / total * 100)` is computed on exact rationals. At a half, this can differ by one from the double-precision result. For example, 23 of 40 gives 57 in JavaScript, because `23 / 40 * 100` is 57.49999999999999. The model gives 58.
  - The average per card is kept in integer tenths.
  - The bar width is an exact real.
  - `Math.random()` is a real in [0, 1).
- Concurrency: `Promise.all` card joins are done one after the other. `Refresh` and `SetUser` run the two fetches in sequence, so for those two methods the model fixes one order of completion.
- Timers: the one-minute `setInterval` of `checkDateChange` and the `setTimeout` of `handleClose` are not modelled. `CheckDateChange` is one tick.
- Browser storage: `localStorage.lastDateChecked` is the plain field `lastDateChecked`.
- Validators: `validateEmail`, `validatePassword` and `validateUsername` live in `src/utils/validation`, which is not part of this model. They are function parameters.
- Unicode: `toLowerCase` lowers only A-Z. `trim` removes the white-space and line-terminator characters listed in `Text.IsSpace`.
- The `typeof notes !== 'string'` guards (`src/lib/api.ts:337`, `src/hooks/useTarotPulls.ts:82`) cannot fail in a typed model, so they are absent.
- The `updated_at` timestamp written with the notes, console logging, and the hook's "notes may not have been updated" warning are not modelled. None of them changes a result.
- Api.Store.CreatePull: requires that the `.single()` read-back of the inserted row reports an error or carries a row. This is the store's own contract: `.single()` with no error returns exactly one row, and it reports an error for zero or several rows. It is not a restriction on the source's callers.
- Store errors (`PostgrestError`) are plain objects, not `Error` instances. A rethrown store error therefore reaches `err instanceof Error ? … : fallback` as the fallback text.
- CsvExport.Quote: follows the source, not section 2 rule 7 of RFC 4180. A quote inside a field is not doubled, so no parse round trip of the CSV is claimed.
- AuthForms.FirstError: `errors[0]` of an empty list is `undefined`; the model gives ''.
- StripeWebhook.UserTable.HandleWebhook: the store's update is taken to be all or nothing. A store that throws, or answers with an error (logged, then answered with 200), is taken to have changed no row.
- `fetchCards` (`src/components/daily_pull/PhysicalCardSelector.tsx:50-63`) is not modelled. The `Selector` starts with whatever cards are placed in it.
- Api.DayKeyIsIsoDate: covers the years 1000 to 9999. Other years give keys with other than four year digits (`Api.DayKeyShape` covers any year).
- Calendar.PullsByDate: its ghost out-parameter `order` records the days in first-seen order. Its only role is to state that the group sizes add up to the number of pulls.
- UpgradePrompt: the colour and animation classes are represented only by `UpgradePrompt.LevelOf`.
- The remaining components, scripts, `subscriptionAPI`, `cleanupAPI`, `src/lib/api-continued.ts` and `src/lib/stripe.ts` are presentation or I/O and are not part of this model.
