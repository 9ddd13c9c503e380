# Contest tracker: a Dafny model

The model covers the two pieces of logic in the contest tracker:

- The backend classifies each upcoming contest from the listing service by
  the name of its hosting resource and its title. It keeps those it
  recognises, orders them by start time and moves each start to Indian
  Standard Time (`backend/server.js`).
- The browser page keeps the fetched list and a platform filter. It draws
  one card per visible contest with a registration badge and announces
  contests whose received start time is within the hour of the browser's
  clock. That start is already shifted by 5 h 30 min and sent with a `Z`
  suffix, so it is compared as if it were UTC. Since the offset
  (19,800,000 ms) is longer than the window (3,600,000 ms), no contest that
  is still upcoming is ever announced; one is announced only when it began
  between 4 h 30 min and 5 h 30 min ago (`Tracker.ShiftedStartDue`). It also runs a two-state
  registration tracker: a register click marks the contest as pending, and
  the next window focus records the user's yes/no answer in `localStorage`
  (`frontend/script.js`).

Modules, one per concern:

| file | module | what it holds |
|---|---|---|
| `wrappers.dfy` | `Wrappers` | `Option`, `Result` |
| `seqs.dfy` | `Seqs` | `filter`, `map` and the stable sort by start time, with their permutation facts |
| `text.dfy` | `Text` | `toLowerCase`, `includes`, and the decimal rendering of an id in a storage key |
| `classifier.dfy` | `Classifier` | `detectPlatform` |
| `aggregator.dfy` | `Aggregator` | the `/api/contests` handler: filter, sort, shift, project, or a 500 |
| `tracker.dfy` | `Tracker` | the page: a `Page` class over `allContests`, `currentFilter`, `pendingRegistration` and `localStorage`, and the pure view, badge and notification functions its handlers use |

Timestamps are integer milliseconds. The offset `5.5 * 60 * 60 * 1000` is
written as `(5 * 60 + 30) * 60 * 1000`, which is 19,800,000. Contest ids
are integers, as the listing service sends them. A storage key is
`"contest_"` followed by the id's decimal digits. The answer to the
confirmation prompt and the wall-clock time are parameters. The storage a
page starts with is a constructor argument.

Three facts about the code that the model keeps:

- The route is `/api/contests` (`backend/server.js:22`).
- A pending id of `0` is falsy, so a focus event then does nothing and
  leaves the marker set (`frontend/script.js:102`).
- The filter is whatever string the button carries
  (`frontend/script.js:90`).

The page stores whatever body a fetch parses, array or not
(`frontend/script.js:15`). The backend's own error body,
`{ "error": "Failed to fetch contests" }`, is not an array. After it, the
fetch shows "Backend error"; every later redraw empties the container and
then throws at `allContests.filter`, so a filter click or an answered
registration leaves the page blank until the next list arrives. The answer
is still stored. `Tracker.ServerErrorBlanksPage` walks through this.

## Model

| member | source | states |
|---|---|---|
| `Classifier.ResourceName` | backend/server.js:11 | The resource name, or "" when the resource or its name is missing; specified through `MissingNameIsOther` and `CaseInsensitive` |
| `Classifier.EventName` | backend/server.js:12 | The lower-cased title; specified through `CaseInsensitive` and `LoweredSameLabel` |
| `Classifier.DetectPlatform` | backend/server.js:10-19 | The first matching rule decides; the rules are the predicates `CodeforcesRule`, `LeetCodeRule`, `CodeChefRule` and `AtCoderRule` (the conditions at lines 14-17); its full characterisation is `DetectPlatformRules` |
| `Classifier.DetectPlatformRules` | backend/server.js:10-18 | Each of the five labels holds exactly when its own rule matches and every earlier rule fails; the LeetCode label stated with "weekly" alone; Other exactly when no rule matches |
| `Classifier.LeetCodeRuleIsWeekly` | backend/server.js:15 | The LeetCode rule with its "biweekly" alternative accepts exactly what it accepts without it |
| `Classifier.BiweeklyIsWeekly` | backend/server.js:15 | A lower-cased title containing "biweekly" contains "weekly" |
| `Classifier.MissingNameIsOther` | backend/server.js:11-18 | An entry without a resource, or whose resource has no name, is classified Other |
| `Classifier.CaseInsensitive` | backend/server.js:11-12 | Entries whose resource names and titles agree after lower-casing get the same label |
| `Classifier.LoweredSameLabel` | backend/server.js:11-12 | Lower-casing an entry's name and title beforehand does not change its label |
| `Classifier.NameInjective` | backend/server.js:14-18 | The five label strings that `Label.Name` gives are pairwise distinct |
| `Classifier.CodeforcesExample` | backend/server.js:14 | "Codeforces Round" / "Codeforces Round 920 (Div. 3)" is Codeforces |
| `Classifier.LeetCodeExample` | backend/server.js:15 | "LeetCode" / "Weekly Contest 410" is LeetCode |
| `Classifier.OtherExample` | backend/server.js:18 | "HackerRank" / "Anything" is Other |
| `Text.Lower` | backend/server.js:11-12 | Lower-cases each ASCII letter and keeps every other character; idempotence is `LowerIdempotent` |
| `Text.LowerIdempotent` | backend/server.js:11-12 | Lower-casing twice is lower-casing once |
| `Text.Contains` | backend/server.js:14-17 | `includes`; characterised by `ContainsIff` |
| `Text.IntToString` | frontend/script.js:51 | The decimal digits of the id in a template string; `DecimalRoundTrip` and `IntToStringInjective` are its contract |
| `Text.ContainsIff` | backend/server.js:14-17 | The recursive `includes` holds exactly when the needle occurs at some index of the haystack |
| `Text.ContainsTransitive` | backend/server.js:15 | A string containing `u` contains every substring of `u` |
| `Text.IntToStringInjective` | frontend/script.js:51-52 | Distinct integers render as distinct decimal strings |
| `Text.DecimalRoundTrip` | frontend/script.js:51-52 | Reading back the decimal digits of a natural number gives the number |
| `Seqs.Filter` | backend/server.js:36 | The kept elements satisfy the predicate, and each satisfying element is kept exactly as often as it occurs |
| `Seqs.SortBy` | backend/server.js:39 | The result is non-decreasing by the key and a permutation of the input |
| `Seqs.Insert` | backend/server.js:39 | Inserting into a sorted sequence keeps it sorted and adds exactly that element |
| `Seqs.SortedByPairs` | frontend/script.js:32 | In a sorted sequence every earlier position has a key no larger than every later one |
| `Seqs.Map` | backend/server.js:42 | `map`: one image per element; position by position by `MapAt`, and permutations kept by `MapPermutation` |
| `Seqs.MapPermutation` | backend/server.js:42-54 | Projecting two permutations of one another gives two permutations of one another |
| `Aggregator.IsKnown` | backend/server.js:36 | The filter's test, a label other than Other; used by the `Aggregate` contract |
| `Aggregator.ToIst` | backend/server.js:42-53 | The projection with the shifted start; specified by `AggregateRecord` and `ShiftKeepsOrder` |
| `Aggregator.Aggregate` | backend/server.js:34-54 | No record is Other; the body is sorted by shifted start; it is a permutation of the shifted projections of the recognised entries, so its length is their number |
| `Aggregator.ShiftKeepsOrder` | backend/server.js:39-45 | Adding the same offset to every start keeps entries sorted by start |
| `Aggregator.AggregateRecord` | backend/server.js:42-53 | Every record comes from a recognised entry: same id, title and link, start plus 19,800,000 ms, platform that entry's label |
| `Aggregator.AggregateCounts` | backend/server.js:36-54 | Every recognised entry appears in the body, at least as often as it occurs in the input |
| `Aggregator.HandleContests` | backend/server.js:56-63 | A successful upstream call yields the aggregated body; a failed one yields status 500 with "Failed to fetch contests" |
| `Tracker.Chosen` | frontend/script.js:29 | The filter test; specified by `VisibleAll` and `VisiblePlatform` |
| `Tracker.ShouldNotify` | frontend/script.js:44 | 0 < start − now ≤ one hour; specified by `NotifyExamples` and `DisplayNotifies` |
| `Tracker.Key` | frontend/script.js:51 | "contest_" followed by the id's digits; injective by `KeyInjective` |
| `Tracker.CardOf` | frontend/script.js:57-72 | The card template: platform, badge, title, start and link; its place in the drawing is stated by `DisplayCard` |
| `Tracker.StatusOf` | frontend/script.js:51-61 | The badge; characterised by `StatusCases` |
| `Tracker.Display` | frontend/script.js:28-83 | The drawing of a list; specified by `DisplayEmpty`, `DisplayCard` and `DisplayNotifies` |
| `Tracker.Draw` | frontend/script.js:24-29 | The page is blank, with nothing announced, exactly when `allContests` is not an array; a list is drawn by `Display` |
| `Tracker.Record` | frontend/script.js:104-108 | The stored answer; specified by `RecordStatus` |
| `Tracker.IsPending` | frontend/script.js:102 | The truthiness test on the pending id; its use is stated by `Page.OnFocus` |
| `Tracker.OnWire` | backend/server.js:47-53 | A response record as the page parses it, the label turned into its name; its use is stated by `Receive` |
| `Tracker.Receive` | frontend/script.js:14-15 | Every backend reply parses; it is a list exactly when the handler succeeded, and then record k is the parsed form of the handler's record k; the 500 body is not a list |
| `Tracker.ShiftedStartDue` | frontend/script.js:40-44 | A listing is announced exactly when its original start is between 5 h 30 min and 4 h 30 min before now, so never while it is upcoming |
| `Tracker.Visible` | frontend/script.js:29-32 | The view is sorted by start and is a permutation of the contests the filter lets through |
| `Tracker.VisibleAll` | frontend/script.js:29 | With filter "All" the view is a permutation of the whole list |
| `Tracker.VisiblePlatform` | frontend/script.js:29 | With any other filter, a contest is in the view exactly when it was fetched and its platform equals the filter |
| `Tracker.DisplayEmpty` | frontend/script.js:34-37 | The "No upcoming contests" screen appears exactly when no fetched contest passes the filter, and then nothing is announced |
| `Tracker.DisplayCard` | frontend/script.js:54-72 | There is one card per visible contest, in view order, with that contest's platform, badge, title, start and link |
| `Tracker.DisplayNotifies` | frontend/script.js:41-48 | A contest is announced exactly when it is visible and 0 < start − now ≤ 3,600,000 ms |
| `Tracker.DisplaySingle` | frontend/script.js:29-48 | A single contest under "All" is drawn as its card alone and announced only when due |
| `Tracker.NotifyExamples` | frontend/script.js:44 | +30 min is announced; +90 min, −1 min and now itself are not; exactly one hour ahead is |
| `Tracker.StatusCases` | frontend/script.js:51-61 | "Registered" exactly for a stored "yes", "Not Registered" exactly for a stored "no", "Upcoming" for no entry or any other value |
| `Tracker.KeyInjective` | frontend/script.js:105-107 | Distinct contest ids have distinct storage keys |
| `Tracker.RecordStatus` | frontend/script.js:104-108 | After recording an answer, that contest's badge is Registered or Not Registered as answered, and every other contest's badge is as before |
| `Tracker.BuildCards` | frontend/script.js:39-82 | The loop over the view builds exactly `Map` of the view to its cards and `Filter` of the view by the notification window |
| `Tracker.Page.constructor` | frontend/script.js:2-4 | Page load: empty list, filter "All", nothing pending, storage as saved |
| `Tracker.Page.DisplayContests` | frontend/script.js:24-83 | Drawing matches `Draw` of the current state and time, blank when `allContests` is not an array |
| `Tracker.Page.OnFetch` | frontend/script.js:12-21 | Any parsed body replaces `allContests`; a list is drawn, a non-array body shows the backend error; a fetch or parse that threw keeps the old contents and shows the error; nothing else changes |
| `Tracker.Page.OnFilterClick` | frontend/script.js:87-92 | The filter becomes the button's platform and the page is redrawn with it; nothing else changes |
| `Tracker.Page.OnRegisterClick` | frontend/script.js:75-79 | The pending marker becomes this contest's id, replacing any earlier one; storage, list and filter are unchanged; the contest's link is opened |
| `Tracker.Page.OnFocus` | frontend/script.js:101-112 | With a truthy pending id, "yes" or "no" is stored under that id's key only, the marker is cleared and the page redrawn; otherwise nothing changes and nothing is drawn |
| `Tracker.RegisterThenFocus` | frontend/script.js:77-109 | A fetched contest is drawn as its own card; a click on its register link followed by focus and an answer gives it the badge the answer names |
| `Tracker.ServerErrorBlanksPage` | frontend/script.js:15-19 | With a contest drawn and its register link clicked, the backend's 500 body makes the fetch show the error; a filter click and the answered prompt both leave the page blank; the next list is drawn with the answer recorded |

## Left out

- HTTP: the upstream request, its URL and credentials, Express routing, CORS and `listen`. The upstream call is the `Result` given to `HandleContests`.
- Logging on the error path. Only the 500 response is modelled.
- Date parsing and formatting (`new Date`, `toISOString`, `toLocaleString`). Times are integer milliseconds, so an unparsable start is not modelled. In the source, a recognised listing with such a start makes `toISOString` throw a RangeError (`backend/server.js:50`), and the catch turns the whole response into the 500.
- The ISO-8601 format-and-reparse round trip. It belongs to the runtime's date formatting.
- `Lower`: lower-cases the ASCII letters only. JavaScript's `toLowerCase` also maps other Unicode letters.
- `Classifier.Entry`: the title is a required string. The source reads `c.event.toLowerCase()` without a guard and would throw if it were absent.
- `Seqs.SortBy`: its contract does not state stability. Inserting each element before equal keys makes it stable, as JavaScript's sort is, but no lemma states that.
- DOM work: `innerHTML`, element creation, CSS classes, the theme toggle, badge texts and emoji. A card carries its badge as a three-valued `Status`.
- The `Notification` permission request and a denied permission. `notified` lists what would be fired with permission granted. It is not deduplicated across draws, as in the source.
- `window.open`, the `confirm` dialog and `setInterval`. The opened link is returned, the dialog's answer is a parameter, and each timer tick is an `OnFetch` call.
- Overlapping fetches resolving out of order. Each `OnFetch` is one completed fetch applied atomically.
- Ids beyond 2^53. JSON parsing rounds such ids to the nearest double, so distinct ids can end up with the same `contest_` key. The model keeps ids exact.
- Bodies that are arrays of something other than contest records. `Payload` is either a list of contests or not an array at all.
