# GitHappy client core, modelled in Dafny

GitHappy is a personal changelog: a user records entries about their life
the way a developer writes commit messages, each with an entry type, a
mood, a sentiment score computed by the backend, gitmojis and tags. This
project models the logic of the web client's components and hooks, with
the backend, the browser and React left outside: every backend answer is
an input (`Backend.Response`: OK with a decoded body, not OK, or thrown),
every piece of component state is a field of a class, and every event
handler is a method that changes those fields.

Modules, one per source file, plus six shared ones (`Wrappers`, `Backend`,
`Seqs`, `Text`, `Entries`, `Calendar`):

- `Wrappers`, `Backend`: the `Option` type; responses, the message a
  `catch` clause derives from what was thrown, the `!token` guard
  (`HasToken`) and the `Bearer` header.
- `Seqs`, `Text`: `filter`, `find` and `slice(0, n)` on sequences;
  `trim` with ECMAScript's exact whitespace set, `split` on one character,
  and decimal rendering of naturals, each with its laws.
- `Entries`: the changelog entry record and the two closed vocabularies
  (seven entry types, six moods) with their wire names.
- `UseTags`: the tag cache (`TagsProvider`) — fetch, refresh, create and
  delete, each changing the cached list only after the backend confirms.
- `TagSelector`: toggling an id in a selection, inline tag creation, the
  badge labels of a selection.
- `ChangelogList`: title truncation at 60 characters, sentiment colour
  bands, entry-type colours, render priority, and the list fetch.
- `MoodDistribution`: the insertion-ordered mood tally, the top mood (a
  left fold), the mood emoji and the card text.
- `Calendar`, `WeeklyStats`: the proleptic Gregorian calendar over day
  numbers, `Date.prototype.getWeek` step by step, proved equal to the
  ISO 8601 week number, and the weekly count card.
- `RecentTags`: the first five cached tags.
- `UseAuth`: the cookie-string parse (the `reduce` into a plain object),
  the session it yields, and logout.
- `TagsPage`, `NewEntryPage`, `ChangelogPage`: the tag management page,
  the new-entry form and its submit handler, and the "Load More" limit.

Two behaviours of the code that a reader might not expect:

- The top mood. `reduce((prev, current) => prev.count > current.count ? prev : current)`
  keeps the earlier bucket only when it is strictly larger, so among tied
  moods the one first seen LAST wins (`MoodDistribution.TopIndexIsLastMaximum`).
- Deleting a tag. The cache drops the tag, but nothing removes its id
  from a selection held by the entry form; the badge then reads "unknown"
  (`TagSelector.DeletedTagBadgeReadsUnknown`).

Other behaviour of the code that the contracts make explicit: the entry
list never clears its error, so one failed fetch leaves the error card up
after later successful fetches (`ChangelogList.ChangelogListState.FetchEntries`);
the list, mood and weekly cards stay in their loading state when there is
no token; a successful create or delete in the tag cache leaves an earlier
error in place; the tags page's `catch` around `createTag` cannot fire,
because `createTag` catches everything itself; a cookie value containing
"=" is cut at that "=" (`UseAuth.CookiePairShape`).

## Model

| member | source | states |
|---|---|---|
| Backend.BearerHeader | app/dashboard/changelog/new/page.tsx:37 | the header is "Bearer " followed by the token, or by "null" when there is none |
| Backend.HasToken | hooks/use-tags.tsx:37 | `!token` is false exactly when the token is neither null nor the empty string |
| Backend.CaughtMessage | hooks/use-tags.tsx:55-56 | an `Error`'s own message, anything else thrown "An unknown error occurred" |
| Backend.FailureMessage | hooks/use-tags.tsx:49-56 | a non-OK response yields the thrown error's fixed message, a thrown value its caught message |
| Entries.ParseEntryType | app/dashboard/changelog/new/page.tsx:94-102 | a string denotes an entry type exactly when it is that type's wire name |
| Entries.ParseMood | app/dashboard/changelog/new/page.tsx:112-119 | a string denotes a mood exactly when it is that mood's wire name |
| Seqs.Filter | hooks/use-tags.tsx:107 | the result is no longer than the input, holds only kept elements of it, and holds every kept element |
| Seqs.Find | components/tag-selector.tsx:51 | none exactly when no element matches; otherwise the first matching element |
| Seqs.Take | components/recent-tags.tsx:10 | the first min(n, length) elements, in order |
| Text.Trim | components/tag-selector.tsx:37 | the result is a slice of the input whose removed ends are whitespace and which neither starts nor ends with whitespace |
| Text.TrimEmptyIffBlank | components/tag-selector.tsx:37 | the trimmed string is empty exactly when the input is blank |
| Text.TrimIdempotent | components/tag-selector.tsx:37 | trimming twice is trimming once |
| Text.Split | hooks/use-auth.tsx:30 | at least one part, none containing the separator |
| Text.JoinSplit | hooks/use-auth.tsx:30 | joining the parts with the separator gives back the string |
| Text.SplitJoin | hooks/use-auth.tsx:30 | splitting a join of separator-free parts gives back the parts |
| Text.NatToString | components/changelog-list.tsx:40 | a non-empty digit string with no leading zero unless the number is 0 |
| Text.ParseNatToString | components/changelog-list.tsx:40 | the decimal rendering parses back to the number |
| Text.NatToStringInjective | components/weekly-stats.tsx:76 | different numbers render differently |
| UseTags.RemoveByIdExact | hooks/use-tags.tsx:107 | a confirmed delete removes every tag with the id and only those, keeping the others' multiplicity and order |
| UseTags.RemoveById | hooks/use-tags.tsx:107 | no longer than the list, and a tag survives exactly when it was cached and carries another id |
| UseTags.TagName | components/tag-selector.tsx:50-53 | the name of the first tag with the id, or "unknown" when none has it |
| UseTags.TagNameAfterRemove | hooks/use-tags.tsx:107 | after a confirmed delete the id's name reads "unknown" |
| UseTags.TagsProvider.constructor | hooks/use-tags.tsx:31-33 | empty list, not loading, no error |
| UseTags.TagsProvider.StartFetch | hooks/use-tags.tsx:36-41 | without a token nothing changes; with one, loading starts and the error clears |
| UseTags.TagsProvider.FinishFetch | hooks/use-tags.tsx:43-59 | success replaces the list, failure keeps it and records the message, loading ends |
| UseTags.TagsProvider.FetchTags | hooks/use-tags.tsx:36-60 | no token: no change; success: the fetched list with no error; failure: old list with the failure's message; never left loading |
| UseTags.TagsProvider.RefreshTags | hooks/use-tags.tsx:115-117 | the same outcome as a fetch |
| UseTags.TagsProvider.CreateTag | hooks/use-tags.tsx:66-90 | no token: no request and null; success: the tag appended and returned; failure: list kept, error set, null |
| UseTags.TagsProvider.DeleteTag | hooks/use-tags.tsx:92-113 | true exactly on a confirmed delete, which removes the id's tags; failure keeps the list and sets the error |
| TagSelector.Toggle | components/tag-selector.tsx:27-33 | the id's membership flips, no other id's membership changes; an unselected id is appended at the end |
| TagSelector.ToggleOffKeepsOthers | components/tag-selector.tsx:29 | deselecting keeps every other id as often as before, in order |
| TagSelector.ToggleTwiceRestores | components/tag-selector.tsx:27-33 | selecting then deselecting an id restores the selection |
| TagSelector.BadgeLabels | components/tag-selector.tsx:58-66 | one badge per selected id, each labelled with the id's tag name |
| TagSelector.DeletedTagBadgeReadsUnknown | components/tag-selector.tsx:58-66 | a selected id whose tag was deleted keeps its badge, labelled "unknown" |
| TagSelector.TagSelectorState.constructor | components/tag-selector.tsx:21-23 | empty input, the given selection |
| TagSelector.TagSelectorState.HandleSelect | components/tag-selector.tsx:27-33 | the selection becomes its toggle |
| TagSelector.TagSelectorState.HandleCreateTag | components/tag-selector.tsx:35-48 | a blank name sends nothing and changes nothing; otherwise the untrimmed name is sent and a created tag is appended to the cache and the selection and the input is cleared; a null result changes neither, keeps the cached list and leaves the cache's error set by the failed create; the cache's loading flag never changes |
| ChangelogList.Title | components/changelog-list.tsx:150 | content up to 60 characters is shown whole, longer content as its first 60 characters and "..." |
| ChangelogList.FullContent | components/changelog-list.tsx:161-163 | the full paragraph appears exactly for content longer than 60 characters |
| ChangelogList.ContentAlwaysShown | components/changelog-list.tsx:150-163 | the whole content is always visible, in the title or in the paragraph |
| ChangelogList.Card | components/changelog-list.tsx:142-172 | the title is the truncated title and the paragraph appears only for long content, so the whole content shows in one of them; both take the score's sentiment colour, the top bar the entry type's colour; mood and gitmojis as stored; one tag-name badge per tag id, in order |
| ChangelogList.SentimentColor | components/changelog-list.tsx:67-73 | each of the five colours exactly on its score band, every bound strict from below |
| ChangelogList.SentimentMonotone | components/changelog-list.tsx:67-73 | a higher score never gets a lower band |
| ChangelogList.EntryTypeColor | components/changelog-list.tsx:75-94 | the default grey exactly for strings that are not one of the seven entry types |
| ChangelogList.EntryTypeColorsDistinct | components/changelog-list.tsx:75-94 | different entry types get different colours |
| ChangelogList.Render | components/changelog-list.tsx:96-175 | skeletons while loading, then the error, then the empty message, then one card per entry in order |
| ChangelogList.TagsNotLoadedReadUnknown | components/changelog-list.tsx:62-65 | with an empty tag cache every tag badge reads "unknown" |
| ChangelogList.ListPath | components/changelog-list.tsx:40 | the list prefix followed by a non-empty run of decimal digits |
| ChangelogList.ListPathCarriesLimit | components/changelog-list.tsx:40 | the limit reads back from the request path |
| ChangelogList.ChangelogListState.constructor | components/changelog-list.tsx:28-30 | no entries, loading, no error |
| ChangelogList.ChangelogListState.FetchEntries | components/changelog-list.tsx:34-60 | no token: nothing; otherwise the path carries the limit, success replaces the entries, failure sets the error, nothing clears it, loading ends |
| MoodDistribution.MoodKey | components/mood-distribution.tsx:38 | a missing or empty mood counts as "UNKNOWN", any other as itself |
| MoodDistribution.Buckets | components/mood-distribution.tsx:43-46 | one bucket per key, in key order, with that key's count |
| MoodDistribution.Tally | components/mood-distribution.tsx:36-46 | one bucket per distinct mood, each holding that mood's number of entries |
| MoodDistribution.TallyCountsEachEntryOnce | components/mood-distribution.tsx:36-46 | counts sum to the number of entries, each bucket counts its mood's entries and is non-empty, every mood has a bucket, moods are distinct and in first-seen order |
| MoodDistribution.CountedStep | components/mood-distribution.tsx:39 | one `set` keeps the map's keys in first-seen order with each key's count |
| MoodDistribution.CountMoods | components/mood-distribution.tsx:36-40 | the loop over the entries leaves the first-seen moods in insertion order, each with its count |
| MoodDistribution.TallyMoods | components/mood-distribution.tsx:36-46 | counting and the map conversion yield the tally |
| MoodDistribution.TallySum | components/mood-distribution.tsx:36-46 | the counts add up to the number of entries |
| MoodDistribution.TallyCovers | components/mood-distribution.tsx:36-46 | a mood has a bucket exactly when some entry has it |
| MoodDistribution.TallyOrdered | components/mood-distribution.tsx:43-46 | buckets hold distinct moods, in the order they were first seen |
| MoodDistribution.TopMood | components/mood-distribution.tsx:78-79 | null exactly when there are no buckets |
| MoodDistribution.TopIndex | components/mood-distribution.tsx:79 | the reduce picks a bucket whose count no other bucket exceeds |
| MoodDistribution.TopIndexIsLastMaximum | components/mood-distribution.tsx:79 | the chosen bucket has the largest count and every later bucket a strictly smaller one |
| MoodDistribution.TopMoodOfTally | components/mood-distribution.tsx:78-79 | on a tally, the top mood occurs among the entries as often as stated and no mood occurs more often |
| MoodDistribution.MoodEmoji | components/mood-distribution.tsx:59-76 | "❓" exactly for strings that are not one of the six moods |
| MoodDistribution.MoodEmojiDistinct | components/mood-distribution.tsx:59-76 | different moods get different emoji |
| MoodDistribution.MoodCard | components/mood-distribution.tsx:99-104 | "..." while loading, "No data" with no buckets, otherwise the top mood's emoji and name; the hint caption exactly when there are no buckets, otherwise "<count> entries with this mood" for the top mood |
| MoodDistribution.MoodDistributionState.constructor | components/mood-distribution.tsx:13-14 | no buckets, loading |
| MoodDistribution.MoodDistributionState.FetchMoodStats | components/mood-distribution.tsx:17-57 | no token: nothing; success: the tally of all entries; failure: old buckets; loading ends |
| Calendar.YearOf | components/weekly-stats.tsx:46 | the year whose span contains the day |
| Calendar.YearOfUnique | components/weekly-stats.tsx:46 | a day lies in exactly one year |
| Calendar.JsDay | components/weekly-stats.tsx:45 | `getDay()` lies between 0 and 6 |
| Calendar.JsDayAnchors | components/weekly-stats.tsx:45 | 1 January 1970 is a Thursday (4), and a day is a Sunday (0) exactly when it is 3 modulo 7 |
| Calendar.IsoWeekday | components/weekly-stats.tsx:45 | Monday 0 to Sunday 6, with 1 January 1970 a Thursday |
| Calendar.IsoWeekdayShift | components/weekly-stats.tsx:45 | moving k days on moves the weekday k places on, modulo 7 |
| WeeklyStats.Thursday | components/weekly-stats.tsx:45 | a Thursday within three days of the date |
| WeeklyStats.FirstThursday | components/weekly-stats.tsx:46-47 | a Thursday in the first seven days of the year |
| WeeklyStats.GetWeek | components/weekly-stats.tsx:42-48 | the method's result is the ISO 8601 week number of the calendar day, whatever the time of day |
| WeeklyStats.FirstThursdayInJan4Week | components/weekly-stats.tsx:46-47 | the year's first Thursday is the Thursday of the week of 4 January, which the offset term relies on |
| WeeklyStats.IsoWeekRange | components/weekly-stats.tsx:42-48 | the week number lies between 1 and 53 |
| WeeklyStats.Jan4InWeekOne | components/weekly-stats.tsx:46 | 4 January is in week 1 |
| WeeklyStats.SameWeekSameNumber | components/weekly-stats.tsx:42-48 | Monday to Sunday share one week number |
| WeeklyStats.NextWeekNextNumber | components/weekly-stats.tsx:42-48 | a week later within the same week-year is the next number |
| WeeklyStats.WeeklyPhrase | components/weekly-stats.tsx:72-76 | "No entries", "1 entry", "n entries" for 0, 1 and more |
| WeeklyStats.WeeklyPhraseInjective | components/weekly-stats.tsx:72-76 | different counts are phrased differently |
| WeeklyStats.WeekPath | components/weekly-stats.tsx:19 | the week prefix followed by the decimal week number, which parses back |
| WeeklyStats.WeeklyStatsState.constructor | components/weekly-stats.tsx:8-9 | count 0, loading |
| WeeklyStats.WeeklyStatsState.FetchWeeklyStats | components/weekly-stats.tsx:13-39 | no token: nothing; otherwise the current ISO week (1 to 53) is requested, success shows the number of entries, failure keeps the old count, loading ends |
| WeeklyStats.Headline | components/weekly-stats.tsx:70 | "..." exactly while loading, otherwise the decimal count, which parses back to the count |
| RecentTags.Recent | components/recent-tags.tsx:10 | the first five cached tags in cache order, or all of them when fewer |
| RecentTags.View | components/recent-tags.tsx:30-42 | loading text exactly while loading, the empty message exactly for an empty cache, otherwise the recent tags' names |
| RecentTags.CreatedTagIsRecent | components/recent-tags.tsx:10 | with fewer than five cached, a created tag shows up last |
| RecentTags.CreatedTagNotRecentWhenFull | components/recent-tags.tsx:10 | with five or more cached, a created tag does not change the card |
| UseAuth.CookiePair | hooks/use-auth.tsx:32 | neither the key nor the value contains "=" |
| UseAuth.CookiePairShape | hooks/use-auth.tsx:32 | the key is the trimmed piece up to its first "="; the value is absent exactly without "=", else exactly the text from there up to the next "=" or the end |
| UseAuth.Store | hooks/use-auth.tsx:33 | `acc[key] = value` adds or overwrites that key and no other, except that the key "__proto__" is never stored |
| UseAuth.Pairs | hooks/use-auth.tsx:30-32 | one key/value pair per piece, in order |
| UseAuth.Fold | hooks/use-auth.tsx:30-37 | the record never holds "__proto__", and each of its keys comes from some pair |
| UseAuth.JarOf | hooks/use-auth.tsx:30-37 | the record of a cookie string never holds "__proto__" |
| UseAuth.FoldLastWins | hooks/use-auth.tsx:30-37 | the last piece with a key decides its value |
| UseAuth.FoldMissingKey | hooks/use-auth.tsx:30-37 | a key no piece has is absent |
| UseAuth.JarOfLastWins | hooks/use-auth.tsx:30-37 | on a cookie string, the last piece with a key decides its value |
| UseAuth.ParseCookies | hooks/use-auth.tsx:30-37 | splitting and reducing the cookie string yields its record |
| UseAuth.ReducePieces | hooks/use-auth.tsx:30-37 | the loop's record is the fold of the pieces' pairs |
| UseAuth.Truthy | hooks/use-auth.tsx:39-43 | a value counts exactly when present and non-empty |
| UseAuth.EmptyCookieNoSession | hooks/use-auth.tsx:30-43 | an empty cookie string yields neither token nor user |
| UseAuth.NoTokenPieceNoToken | hooks/use-auth.tsx:30-41 | no piece keyed "token" means no token |
| UseAuth.AuthProvider.constructor | hooks/use-auth.tsx:24-25 | no user, no token |
| UseAuth.AuthProvider.LoadAuth | hooks/use-auth.tsx:29-50 | a non-empty token cookie is adopted; a non-empty user cookie that decodes is adopted; otherwise each keeps its value |
| UseAuth.AuthProvider.Logout | hooks/use-auth.tsx:55-63 | both cookies are expired, in that order, and the session is cleared |
| TagsPage.ListView | app/dashboard/tags/page.tsx:95-118 | loading text exactly while loading, the empty message exactly for an empty cache, otherwise every tag |
| TagsPage.TagsPageState.constructor | app/dashboard/tags/page.tsx:16-17 | empty input, no error |
| TagsPage.TagsPageState.HandleCreateTag | app/dashboard/tags/page.tsx:21-36 | a blank name shows the inline error and sends nothing; otherwise the untrimmed name is sent and the input cleared whatever the outcome; the cache gains the tag on success, keeps its list otherwise and shows the failure's message after a failed create; the cache's loading flag never changes |
| TagsPage.TagsPageState.HandleDeleteTag | app/dashboard/tags/page.tsx:38-44 | a confirmed delete removes the id's tags; otherwise the list is kept; the cache's error changes only on a failed delete, to the failure's message; the cache's loading flag never changes |
| NewEntryPage.RejectionMessage | app/dashboard/changelog/new/page.tsx:47-50 | the backend's non-empty detail, else "Failed to create entry" |
| NewEntryPage.NewEntryForm.constructor | app/dashboard/changelog/new/page.tsx:18-23 | empty content, a highlight, a happy mood, no tags, no error, not loading |
| NewEntryPage.NewEntryForm.HandleSubmit | app/dashboard/changelog/new/page.tsx:27-58 | the four fields are posted as they stand; success navigates to the list, failure shows its message; loading ends; fields are kept |
| NewEntryPage.NewEntryForm.Submit | app/dashboard/changelog/new/page.tsx:77-84 | an empty content field blocks the submit and changes nothing; otherwise the fields are posted and, as in the handler, success navigates to the list with no error and a failure shows its message without navigating |
| ChangelogPage.LimitAfterClosedForm | app/dashboard/changelog/page.tsx:10-15 | after n presses the limit is 10 + 10n, a positive multiple of ten |
| ChangelogPage.LimitNeverDecreases | app/dashboard/changelog/page.tsx:13-15 | more presses never lower the limit |
| ChangelogPage.FetchUsesPageLimit | app/dashboard/changelog/page.tsx:26 | the list request after n presses asks for 10 + 10n entries |
| ChangelogPage.ChangelogPageState.constructor | app/dashboard/changelog/page.tsx:10 | the limit starts at 10 |
| ChangelogPage.ChangelogPageState.LoadMore | app/dashboard/changelog/page.tsx:13-15 | the limit grows by ten and stays a positive multiple of ten |

## Left out

- The backend, `fetch` and JSON decoding: every answer is an input, already decoded into the model's types; a body of the wrong shape is not modelled.
- React itself: rendering, effects and when they re-run, the context plumbing, and the order in which asynchronous state updates land; each handler is modelled as running to completion on the state it started with.
- Concurrency: two requests in flight at once (a create while a fetch runs) are not modelled.
- Markup, styling, icons, popovers, the search box of the tag list and the disabled state of buttons; the relative creation time (`formatDistanceToNow`).
- Console logging on failures.
- UseAuth.AuthProvider.LoadAuth: `decodeURIComponent` and `JSON.parse` are one parameter, `decodeUser`, returning `None` where either would throw; a user value that parses to something other than an object is not modelled.
- UseAuth.AuthProvider.Logout: the cookie writes are returned as strings; the browser's cookie store and its expiry are not modelled.
- UseAuth.ProtoKey: of the keys a plain object treats specially only "__proto__" is modelled.
- WeeklyStats.GetWeek: local time only, with every day 86400000 ms long; time zones and daylight-saving shifts are not modelled, and neither is `new Date(y, 0, 4)` mapping years 0 to 99 onto 1900 to 1999.
- ChangelogList.Title: lengths count Unicode code points, not UTF-16 code units, so a title with characters outside the Basic Multilingual Plane may be cut at a different place.
- NewEntryPage.RejectionMessage: the error body's `detail` is modelled as a string or absent; a non-string `detail` (such as a list of validation errors) is not modelled.
- The sentiment score is a real number; floating-point rounding is not modelled.
- The dashboard navigation, the landing page and the providers wrapper are not part of this model.
