# Scout Machine list logic, modelled in Dafny

This project models the list logic of a web application that shows FRC
(FIRST Robotics Competition) teams and events. It covers three pieces of
that application:

- **The events screen** (`components/screens/EventsScreen.tsx`). Events can
  be filtered by competition week, with a toggle. They can be searched as
  free text. They can be limited to a radius around a position. The screen
  draws one section per active filter and falls back to a grouped default
  view. Each event card shows a shortened name and a distance line.
- **The team query endpoint** (`pages/api/team/query.ts`). It joins twenty
  pages of teams into one list. A query `q` filters that list by free text.
  Otherwise a query `f` filters it by "number family".
- **The teams page** (`pages/teams/index.tsx`). `fetchTeamsData` shuffles
  the cached team list in place. It then picks a search window, a number
  range or the first 50 teams, or it fetches the window's avatars. The page
  state handles infinite scrolling, search and range filtering.

Modules, one per file:

- `Wrappers`: `Option` and `Result`.
- `Seqs`: `Array.prototype.filter` as `Filter`, and `slice` as `Slice`. Also
  order (`IsSubsequence`), monotonicity and permutation facts.
- `Text`: ASCII `toLowerCase` (`Lower`) and `includes` (`Includes`).
  `String(n)` for a non-negative integer (`Decimal`) and its inverse.
  JavaScript's `<=` on strings (`LexLeq`). The thousands-separator rewrite
  (`ThousandsSeparated`).
- `Teams`: the team record, and the free-text match that the endpoint and
  the page share.
- `EventsScreen`, `TeamQuery` and `TeamsPage`: the three source files.

Some functions only define what the source computes. Rows in the table
below state their behaviour through lemmas:

- `EventsScreen.SearchMatch` is the event search predicate
  (EventsScreen.tsx:258-267). It is covered by `MissingDistrictReadsUndefined`
  and `SearchIgnoresCase`.
- `EventsScreen.KmText` is the kilometre figure (EventsScreen.tsx:39-41). It
  is covered by `KmTextReadsBack`, `SeparatorsAgree` and `DistanceLabel`.
- `TeamQuery.InFamily` is the `f` rule (query.ts:38-42). It is covered by
  `FamilyTeams`, `LongFamily`, `LongFamilyNoDigitStart` and `ShortFamily`.
- `TeamQuery.Flatten` and `TeamQuery.SourceTeams` are the twenty joined
  pages (query.ts:15-17). They are covered by `FlattenAppend`,
  `FlattenMembership` and `SourceOrder`.
- `TeamsPage.CachedSelection` is the choice made when both caches are
  present (index.tsx:34-41). It is covered by `SearchTermBranch`,
  `RangeBranch` and `DefaultBranch`.

Pure code is modelled as functions and lemmas. Code that mutates is
imperative Dafny:

- The filter pass that fills the distance dictionary is a loop
  (`ComputeNearby`).
- The in-place shuffle works on an array (`Shuffle`).
- The avatar requests fill a map in a loop (`FetchAvatars`).
- The hook state of each screen is a class, `EventsScreenState` and
  `TeamsPageState`. Each event handler or effect is a method with a
  `modifies` clause.

Foreign pieces are parameters:

- The haversine distance is `distance: Event -> Option<real>`. `None`
  stands for `NaN`.
- `Number(text)` of non-blank text is `parse`.
- The random comparator sort is a list of swaps, `swaps`. Any permutation is
  a product of swaps.
- `teamNumberInRange` is `inRange`.
- The avatar request is `fetchAvatar`.
- A page request of the endpoint is `fetchPage`.
- "Today" is a `YYYY-MM-DD` string, `today`.
- Local storage is a `Storage` value.

Two behaviours of the events screen are easy to misread:

- The week, search and nearby sections are drawn independently and can
  appear together (`RenderedSections`, `SectionsCanStack`).
- A missing district abbreviation concatenates as the text "undefined",
  which the search matches (`MissingDistrictReadsUndefined`).

## Model

| member | source | states |
|---|---|---|
| `EventsScreen.ToggleWeek` | components/screens/EventsScreen.tsx:231-236 | the result is always -1 or a week 0..5; it is -1 exactly when `x` was already selected, and `x` otherwise |
| `EventsScreen.ToggleTwice` | components/screens/EventsScreen.tsx:234-236 | choosing the same week twice gives -1 (from -1 or from another week) and gives `x` back when `x` was selected |
| `EventsScreen.EventsScreenState.SelectWeek` | components/screens/EventsScreen.tsx:234-237 | the click handler sets `weekQuery` to the toggle of its old value and keeps it in {-1, 0..5} |
| `EventsScreen.EventsScreenState.constructor` | components/screens/EventsScreen.tsx:55-64 | initial hook state: empty search, no nearby events, nearby mode off, radius 350, navigation valid, no distances, no week |
| `EventsScreen.MissingDistrictReadsUndefined` | components/screens/EventsScreen.tsx:258-267 | an event without a district matches the query "undefined" in any case, because the missing abbreviation concatenates as that word |
| `EventsScreen.SearchIgnoresCase` | components/screens/EventsScreen.tsx:258-267 | two queries with the same lower-case form list the same events in the search section |
| `Text.Lower` | components/screens/EventsScreen.tsx:266 | lower-casing keeps the length and lower-cases each character |
| `Text.LowerIdempotent` | components/screens/EventsScreen.tsx:266-267 | lower-casing twice is lower-casing once |
| `Text.LowerConcat` | components/screens/EventsScreen.tsx:259-266 | lower-casing a concatenation lower-cases each part |
| `Text.IncludesIff` | components/screens/EventsScreen.tsx:267 | `includes` holds exactly when the needle occurs as a contiguous block at some index |
| `Text.IncludesSuffix` | components/screens/EventsScreen.tsx:264-267 | a string includes its own tail |
| `EventsScreen.RangeLimit` | components/screens/EventsScreen.tsx:98 | `Number(nearbyRange)` is 350 for the initial radius and 0 for a blank one |
| `EventsScreen.ResetRange` | components/screens/EventsScreen.tsx:71-73 | a blank radius becomes 350, any other radius is kept, and the result is never blank |
| `EventsScreen.ResetRangeIdempotent` | components/screens/EventsScreen.tsx:71-73 | resetting a reset radius changes nothing |
| `EventsScreen.EventsScreenState.ResetBlankRange` | components/screens/EventsScreen.tsx:71-73 | the effect replaces a blank radius by 350 and leaves any other radius alone |
| `EventsScreen.EventsScreenState.SetNearbyRange` | components/screens/EventsScreen.tsx:193 | the radius box stores the typed text |
| `EventsScreen.NearbyEvents` | components/screens/EventsScreen.tsx:87-99 | the nearby list keeps the order of the event list and holds exactly the events whose distance is a number no larger than the radius, each as often as in the event list |
| `EventsScreen.NearbyMonotone` | components/screens/EventsScreen.tsx:98 | enlarging the radius never drops an event and keeps the order of the survivors |
| `EventsScreen.NaNRangeSelectsNothing` | components/screens/EventsScreen.tsx:98 | a radius that reads as `NaN` selects no event |
| `EventsScreen.DistanceMap` | components/screens/EventsScreen.tsx:85-97 | the distance dictionary has exactly the event codes of the list as keys |
| `EventsScreen.DistanceMapAt` | components/screens/EventsScreen.tsx:97 | an event's entry holds its own distance unless a later event has the same code |
| `EventsScreen.ComputeNearby` | components/screens/EventsScreen.tsx:85-99 | one pass over the events builds exactly the nearby list and the distance dictionary |
| `EventsScreen.EventsScreenState.RecomputeNearby` | components/screens/EventsScreen.tsx:109-126 | after a position arrives, the state holds the nearby list for the radius in force and the distance dictionary |
| `EventsScreen.EventsScreenState.PermissionAnswered` | components/screens/EventsScreen.tsx:106-130 | a permission other than "granted" marks navigation invalid, and nothing clears the mark |
| `EventsScreen.EventsScreenState.ToggleNearby` | components/screens/EventsScreen.tsx:177 | the nearby button flips nearby mode |
| `EventsScreen.EventsScreenState.SetSearchQuery` | components/screens/EventsScreen.tsx:209 | the search box stores the typed query |
| `EventsScreen.NearbySectionByName` | components/screens/EventsScreen.tsx:274-279 | the Nearby section lists every event that shares its name with a nearby event, even when it is not nearby itself |
| `EventsScreen.RenderedSections` | components/screens/EventsScreen.tsx:250-312 | the week section is drawn iff a week is selected, the search section iff the query is non-empty, the nearby section iff nearby mode is on, and the default view iff none of the three is; no other section is drawn, none twice, and they come top to bottom as week, search, nearby, then the default buckets |
| `EventsScreen.FilteredSections` | components/screens/EventsScreen.tsx:250-283 | the week, search and nearby sections each appear exactly on their own condition, in that order, and the list is empty exactly when none of the three conditions holds |
| `EventsScreen.SectionsCanStack` | components/screens/EventsScreen.tsx:250-283 | a selected week, a search query and nearby mode draw three sections together |
| `EventsScreen.SectionEvents` | components/screens/EventsScreen.tsx:285-311 | a section lists, in list order, exactly the events that satisfy its own predicate, each as often as in the event list |
| `EventsScreen.PreseasonIgnoresWeek` | components/screens/EventsScreen.tsx:291-301 | a Preseason event is in the Preseason bucket whatever its week and end date, and in week bucket k exactly when its week is k |
| `EventsScreen.PreseasonBucketsOverlap` | components/screens/EventsScreen.tsx:287-301 | a Preseason event with week k that has not ended is listed in the Preseason bucket, week bucket k and Upcoming at once |
| `Text.LexLeqRefl` | components/screens/EventsScreen.tsx:288 | the string comparison used for Upcoming is reflexive |
| `Text.LexLeqTotal` | components/screens/EventsScreen.tsx:288 | any two dates compare one way or the other |
| `Text.LexLeqAntisym` | components/screens/EventsScreen.tsx:288 | two strings each `<=` the other are equal |
| `Text.LexLeqTrans` | components/screens/EventsScreen.tsx:288 | the string comparison is transitive |
| `EventsScreen.DisplayName` | components/screens/EventsScreen.tsx:24-26 | a name of at most 49 characters is shown unchanged, a longer one as its first 49 characters and "...", never more than 52 characters |
| `EventsScreen.CountLabel` | components/screens/EventsScreen.tsx:144-147 | the count is followed by "event" exactly when it is 1 and by "events" otherwise |
| `EventsScreen.Trunc` | components/screens/EventsScreen.tsx:40 | `Math.trunc` drops the fraction towards zero |
| `EventsScreen.KmTextReadsBack` | components/screens/EventsScreen.tsx:39-41 | deleting the commas from the distance figure gives the digits of the truncated distance, which read back as that distance |
| `Text.SeparatorsAgree` | components/screens/EventsScreen.tsx:41 | the regular-expression rewrite puts a comma before each full group of three digits counted from the right, except before the first digit |
| `Text.SeparatorsRoundTrip` | components/screens/EventsScreen.tsx:41 | deleting the inserted commas gives back the digit string |
| `Text.SeparatedLength` | components/screens/EventsScreen.tsx:41 | an n-digit figure gets (n - 1) / 3 commas |
| `EventsScreen.DistanceLabel` | components/screens/EventsScreen.tsx:35-45 | the distance line appears exactly when navigation is valid and the event's code maps to a number, and reads "<figure>km away" |
| `EventsScreen.LabelAfterPass` | components/screens/EventsScreen.tsx:35-36 | after a filter pass, with valid navigation, an event has a distance line exactly when its distance is a number |
| `EventsScreen.EventsScreenState.Cards` | components/screens/EventsScreen.tsx:152-162 | one card per listed event, with its shortened name and its distance line |
| `EventsScreen.EventsScreenState.Render` | components/screens/EventsScreen.tsx:135-171 | each drawn section carries the count header and the cards of the events it lists, card i for event i |
| `Seqs.FilterIsSubsequence` | pages/api/team/query.ts:24-29 | a filtered list keeps the order of its source |
| `Seqs.FilterPermutation` | pages/teams/index.tsx:38-40 | filtering a permutation of a list gives a permutation of the filtered list |
| `Seqs.Slice` | pages/teams/index.tsx:25 | `slice` with non-negative bounds: clamped to the length, element `i` of the result is element `start + i` of the list |
| `Text.Decimal` | pages/api/team/query.ts:26 | a team number concatenates as its decimal digits, with no leading zero |
| `Text.DecimalRoundTrip` | pages/api/team/query.ts:26 | reading back the decimal text of a number gives the number |
| `Text.DecimalLength` | pages/api/team/query.ts:42 | a number has at most k digits exactly when it is below 10^k |
| `Teams.SearchText` | pages/api/team/query.ts:26 | the search text of a team starts with its number's decimal text |
| `Teams.MatchingTeams` | pages/teams/index.tsx:28-32 | the matching teams keep list order and are exactly the teams whose lower-cased text includes the lower-cased term, each as often as in the list |
| `Teams.NumberFindsTeam` | pages/api/team/query.ts:26-28 | typing a team's number always finds that team |
| `Teams.MatchingIgnoresCase` | pages/api/team/query.ts:27-28 | two terms with the same lower-case form match the same teams |
| `TeamQuery.PageNames` | pages/api/team/query.ts:15 | the endpoint requests twenty pages, the i-th named by the decimal text of i (no leading zero), from "0" to "19" |
| `TeamQuery.Flatten` | pages/api/team/query.ts:17 | no pages give no teams |
| `TeamQuery.FlattenAppend` | pages/api/team/query.ts:17 | flattening two runs of pages concatenates their teams |
| `TeamQuery.FlattenMembership` | pages/api/team/query.ts:17 | a team is in the flat list exactly when some page holds it |
| `TeamQuery.SourceOrder` | pages/api/team/query.ts:15-17 | the source list is the teams of the first k pages followed by those of the rest, in page order |
| `TeamQuery.FamilyTeams` | pages/api/team/query.ts:36-43 | the family filter keeps source order and keeps exactly the teams in the family of `f`, each as often as in the source |
| `TeamQuery.GetTeams` | pages/api/team/query.ts:22-49 | the handler sends no response exactly when neither `q` nor `f` is truthy |
| `TeamQuery.QueryFilter` | pages/api/team/query.ts:22-29 | with `q`, the teams returned are exactly the source teams whose lower-cased text includes lower-cased `q`, in source order |
| `TeamQuery.QueryPrecedence` | pages/api/team/query.ts:22-34 | once `q` is truthy, `f` has no effect |
| `TeamQuery.QueryIgnoresCase` | pages/api/team/query.ts:26-28 | "HOUSTON" and "houston" return the same teams |
| `TeamQuery.LongFamily` | pages/api/team/query.ts:38-41 | a long `f` returns exactly the teams whose number has the first character and the length of `f` |
| `TeamQuery.LongFamilyNoDigitStart` | pages/api/team/query.ts:38-41 | a long `f` starting with "0" or with a non-digit returns no team |
| `TeamQuery.ShortFamily` | pages/api/team/query.ts:42 | a short `f` returns exactly the teams numbered below 1000, whatever its characters |
| `TeamQuery.NoParameters` | pages/api/team/query.ts:22-49 | with neither parameter truthy the handler never responds |
| `TeamsPage.ApplySwapsPermutes` | pages/teams/index.tsx:24 | the shuffled list holds the same teams as the cache, each as often |
| `TeamsPage.Shuffle` | pages/teams/index.tsx:24 | the in-place sort leaves the array permuted by the given swaps |
| `TeamsPage.InRangeTeams` | pages/teams/index.tsx:38-40 | the range filter keeps list order and keeps exactly the teams `teamNumberInRange` accepts, each as often as in the list |
| `TeamsPage.AvatarMap` | pages/teams/index.tsx:50-61 | the avatar map has the window's team numbers as keys, each mapped to that number's avatar answer |
| `TeamsPage.FetchAvatars` | pages/teams/index.tsx:49-61 | the request loop builds exactly that avatar map |
| `TeamsPage.FetchTeams` | pages/teams/index.tsx:16-74 | the fetch fails exactly when the team cache is missing, and writes the avatar cache exactly when that cache was missing |
| `TeamsPage.FetchTeamsData` | pages/teams/index.tsx:16-74 | shuffling a fresh array in place and selecting from that same array gives the outcome `FetchTeams` describes |
| `TeamsPage.MissingTeamsFails` | pages/teams/index.tsx:22-24 | without the team cache the call fails at the sort, even when avatars are cached |
| `TeamsPage.SearchTermBranch` | pages/teams/index.tsx:27-36 | with both caches and a search term, the result is the [startIndex, endIndex) window of the matching cached teams: its length is the clamped window size and it holds no team more often than the matching teams do |
| `TeamsPage.RangeBranch` | pages/teams/index.tsx:37-40 | with both caches, no term and a range, the result is a permutation of all cached teams in the range, unwindowed |
| `TeamsPage.DefaultBranch` | pages/teams/index.tsx:41 | with both caches and neither term nor range, the result is min(50, list size) cached teams, none repeated beyond its count in the cache |
| `TeamsPage.FetchPath` | pages/teams/index.tsx:49-73 | with the team cache but no avatar cache, the result is the shuffled window, in order and with each team as often as in the window, filtered by the range when one is given; the avatars are exactly the fetched answers for the window's teams, and they are also stored |
| `TeamsPage.StoreAvatars` | pages/teams/index.tsx:64 | storage keeps the team list and takes the avatar cache only when the fetch wrote one |
| `TeamsPage.ScrollWindow` | pages/teams/index.tsx:93-94 | the new window starts one past the old end and spans 49 indices, not 50 |
| `TeamsPage.ScrollKeepsWindowOk` | pages/teams/index.tsx:91-94 | scrolling keeps the window a reachable one |
| `TeamsPage.Reached` | pages/teams/index.tsx:91-94 | every window reached by scrolling from the first page is a reachable window |
| `TeamsPage.ReachedForm` | pages/teams/index.tsx:93-94 | after n scrolls the window is (50n + 1, 50(n + 1)) |
| `TeamsPage.ScrollsSkipExactlyOldEnds` | pages/teams/index.tsx:81-94 | after n scrolls, the windows requested so far cover every index below the last end except exactly 50, 100, ..., 50n |
| `TeamsPage.WindowsSkipMultiplesOf50` | pages/teams/index.tsx:81-94 | no reachable window ever asks for index 50, 100, 150, ... |
| `TeamsPage.TeamsPageState.constructor` | pages/teams/index.tsx:77-84 | initial state: no teams, empty query, no avatars, not loading, window (0, 50), no range |
| `TeamsPage.TeamsPageState.OnScroll` | pages/teams/index.tsx:87-95 | past 80% of the page and not loading, the window moves on and loading starts; otherwise nothing changes |
| `TeamsPage.TeamsPageState.Apply` | pages/teams/index.tsx:105-107 | a successful fetch appends or replaces the teams, replaces the avatars and ends loading; a rejected one changes nothing |
| `TeamsPage.TeamsPageState.Paginate` | pages/teams/index.tsx:102-112 | the paging effect appends the fetched teams after those already shown |
| `TeamsPage.TeamsPageState.ChangeSearch` | pages/teams/index.tsx:114-129 | typing resets the window to (0, 50) and passes the text as the number range, with an empty search term, then replaces the teams |
| `TeamsPage.TeamsPageState.SetTeamNumberRange` | pages/teams/index.tsx:184 | a range button stores its range |
| `TeamsPage.TeamsPageState.FilterByNumber` | pages/teams/index.tsx:131-148 | with a range chosen, fetches the window with the range and the query as search term and replaces the teams; without one, nothing changes |

## Left out

- The haversine distance, the browser's geolocation and permission API, and address geocoding (`getGeoData`) are asynchronous foreign code. The distance is a parameter, `None` for `NaN`. The permission answer is the argument of `PermissionAnswered`. A geocoding failure is not modelled.
- The address field, the `filterByAddress` flag and the "Search" button only choose where the position comes from. Both positions reach `RecomputeNearby` in the same way.
- React scheduling is not modelled. Each handler or effect is one method, and the caller decides the order. In the source, the effect run that resets a blank radius still filters with the radius it captured, and `Number("")` is 0. The model shows this by letting `RecomputeNearby` read the radius as it stands. A late geocoding reply can also overwrite a newer one; that race is not modelled.
- `Number(text)` of non-blank text (trimming, exponent forms, `NaN`) is the `parse` parameter. Only `Number("")` = 0 is written out.
- `Text.Lower`: only ASCII letters are lower-cased. JavaScript's `toLowerCase` also maps other Unicode letters. Characters are Dafny `char`s, not UTF-16 code units, so `slice(0, 49)` on a name with surrogate pairs is not modelled.
- `Text.Decimal` models `String(n)` for non-negative integers only. Team numbers and truncated distances are never negative or 10^21 and above. Negative `KmText` values are handled by a leading "-".
- JSX markup, styling, section titles ("Week n events", "Nearby (350km)"), the "no events found" text, `convertDate`, `CURR_YEAR`, the loading spinner and the week drop-down's open/closed state are presentation only.
- Local storage, `fetch`, `Promise.all`, `performance.now` and logging are I/O. Storage is a `Storage` value. The twenty page requests are `fetchPage`, and the avatar requests are `fetchAvatar`. The avatar requests run concurrently in the source. Each answer lands under its own team number, so their order does not matter.
- A failed `fetch` or `res.json()` inside the avatar requests is not modelled. Only the `null` avatar that the `try`/`catch` stores is represented, as `None`.
- `Math.random` in the sort comparator becomes a caller-supplied list of swaps. The sort algorithm itself is not modelled.
- `teamNumberInRange` is not part of this model. It is the `inRange` parameter.
- Query parameters given as arrays (`?q=a&q=b`), which `String(...)` would join with commas, are not modelled. `q` and `f` are optional strings.
- `Seqs.Slice` takes non-negative bounds only. JavaScript's negative `slice` bounds never arise here, because the window only moves forward.
- pages/events/index.tsx, pages/api/@me/favourites.ts, lib/fetchTBA.ts, pages/fame.tsx, pages/teams/[team]/index.tsx, components/screens/marketplace/MarketplacePost.tsx and pages/_document.tsx are fetch, caching, authentication and markup code. They are not part of this model.
