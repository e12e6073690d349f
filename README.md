# Travel-preference booking: a verified model

This project models the core of a travel-booking web application written in
TypeScript, and proves properties of that model. Users state travel
preferences in a form. The server stores the preferences in an in-memory
storage. It serves a catalogue of six seeded travel packages and recommends the
three packages most relevant to the user's latest preference. The client polls
an external search job and renders its result. The model covers these parts:

- **Schema (`schema.dfy`).** The records of `shared/schema.ts` (users,
  preferences, travel packages) with their insert shapes. `insertPreferenceSchema`
  is modelled as a validator of a JSON body, with the JSON encoding a client sends
  and the round trip between them.
- **Storage (`storage.dfy`).** `MemStorage` as a class: three tables (`map`s
  keyed by id) and three id counters that its methods update in place. The seed
  catalogue (`seed.dfy`) is included. The JavaScript `Map` iteration order is the table's
  ascending-id view `Ordered`: ids are handed out in increasing order and never
  deleted, and `Map.set` on an existing key keeps its position.
- **Routes (`routes.dfy`).** The handlers of `server/routes.ts` as methods over a
  `MemStorage`. The session's user id is a parameter.
- **Ranking (`ranking.dfy`, `stable_sort.dfy`).** The recommendation algorithm
  works in stages:
  - it filters by shared interest;
  - it sorts in place by the number of shared categories;
  - it returns the first three.

  `Array.prototype.sort` is stable, so the sort is specified by a stable
  insertion sort on sequences (`StableSort.Sort`). It is implemented by an
  in-place insertion sort on an `array` (`StableSort.InsertAt`,
  `Ranking.SortByRelevance`). The specification is proved sorted, a permutation,
  stable, and the only sorted ordering with those equal-key classes.
- **Results page (`results_page.dfy`).** The job-result page as a class. Its
  `useState` values are fields. Every event is a method:
  - the effect;
  - a timer tick;
  - a status, result or refresh reply;
  - the retry click;
  - unmounting.

  The render decision is a function of the state.
- **Preference form (`preference_form.dfy`).** The form's zod schema as a
  validator, its defaults, the interest checkbox toggle, the select options and
  the submit mapping.
- **API (`api.dfy`).** The axios interceptors and `logout` as a class over the
  `localStorage` map.
- **Support (`js.dfy`, `base.dfy`).** The JavaScript semantics the code relies
  on, written out: truthiness, optional member access, `String(x)`, and
  `parseInt` without a radix. `base.dfy` holds `Option`/`Result`, `filter` and
  `find`.

Inputs that come from outside the program are parameters:
- the logged-in user (the session);
- the replies of the job service (`getJobStatus`, `getJobResult`);
- the timer handle the browser assigns;
- the outcome of an HTTP call.

Behaviour of the code that the model keeps as written:
- **Polling never stops.** `clearInterval` is called with the `pollingInterval`
  value the effect's closures captured. That value is `null`, because the
  effect runs once, on the first render. So the interval is never cleared,
  neither on a final status nor by the cleanup on unmount:
  - `Page.OnStatusReply` ensures `timers == old(timers)`;
  - `ResultsPage.CompletedRun` shows the timer still active after the result is
    shown;
  - `ResultsPage.CompletionReloads` shows that every further COMPLETED answer
    loads the result again.
- **Overlapping status checks.** The interval fires whatever is pending, so
  several status checks can be outstanding at once (`Page.Tick` has no
  precondition about pending queries).
- **Replies after unmount.** React drops state updates of an unmounted
  component, and the model does the same. The timer, further status requests,
  result loads and the failure toast still happen.
- **A render that throws.** A listed `esperienze` or `packages` value that is
  not an array, or an array with a `null` or `undefined` entry, makes the
  render throw at `.map` or at the entry's first property read
  (`ResultsPage.View` returns `RenderFails`).
- **Logout after a 401.** A failed logout keeps the refresh token. When the
  failure is a 401, the response interceptor has already removed `auth_token`
  before `logout` rethrows (`Api.ApiClient.Logout`).

## Model

| member | source | states |
|---|---|---|
| Base.Filter | server/storage.ts:84-88 | `Array.prototype.filter`: the result holds exactly the elements that pass, in order (`Base.FilterAppend`), each as often as in the input (`Base.FilterMultiplicity`) |
| Base.FindFirst | server/storage.ts:61-65 | `Array.prototype.find`: `None` exactly when no element passes; otherwise the first element that passes |
| Js.ParseIntToString | server/routes.ts:36 | `parseInt(String(n)) == n` for every integer `n` |
| Js.ParseIntDecimal | server/routes.ts:36 | `parseInt` reads back every canonical decimal spelling |
| Js.ParseIntRejects | server/routes.ts:36 | a string starting with neither white space, a sign nor a digit parses to NaN |
| Schema.UserWithId | server/storage.ts:73-78 | `{...insertUser, id}` has that id, and dropping the id gives back the insert record |
| Schema.UserRowRoundTrip | shared/schema.ts:5-18 | a user row is its insert fields plus its id |
| Schema.PreferenceWithId | server/storage.ts:90-95 | `{...insertPreference, id}` has that id, and its other fields are the insert record |
| Schema.PreferenceRowRoundTrip | shared/schema.ts:20-40 | a preference row is its insert fields plus its id |
| Schema.TravelPackageWithId | server/storage.ts:122-127 | `{...insertTravelPackage, id}` has that id, and its other fields are the insert record |
| Schema.TravelPackageRowRoundTrip | shared/schema.ts:42-63 | a package row is its insert fields plus its id |
| Schema.IntRequired | shared/schema.ts:22 | the required integer `userId` is accepted exactly when it is a number; otherwise there is one "number" issue |
| Schema.IntNullable | shared/schema.ts:27-29 | a nullable integer column accepts exactly undefined, null or a number; otherwise there is one "number" issue |
| Schema.TextNullable | shared/schema.ts:23-26 | a nullable text column accepts exactly undefined, null or a string; otherwise there is one "string" issue |
| Schema.TextArrayNullable | shared/schema.ts:30 | `interests` accepts exactly undefined, null or an array of strings, keeping every element; otherwise issues are reported |
| Schema.ElementIssues | shared/schema.ts:30 | an array has no element issues exactly when all its elements are strings; each issue names the field and an index |
| Schema.AllIssuesEmpty | shared/schema.ts:38-40 | the schema reports no issue exactly when every column is well typed |
| Schema.ParseInsertPreference | shared/schema.ts:38-40 | the body is accepted exactly when it is well typed; a rejection carries at least one issue; an accepted `userId` is the body's |
| Schema.TextArrayJson | shared/schema.ts:30 | the JSON form of an interest list is an array of strings of the same length and elements, or `null` |
| Schema.TextRoundTrip | shared/schema.ts:23-26 | a text column reads back the value it was encoded from |
| Schema.IntRoundTrip | shared/schema.ts:27-29 | an integer column reads back the value it was encoded from |
| Schema.TextArrayRoundTrip | shared/schema.ts:30 | the interests column reads back the list it was encoded from |
| Schema.ParsePreferenceJson | shared/schema.ts:38-40 | validation accepts the JSON form of every insert preference and returns that same preference |
| Schema.AnyInterestCountAccepted | shared/schema.ts:30 | the server schema accepts an interest list of any length (the 1..3 bound is client-side only) |
| Storage.Ordered | server/storage.ts:62 | `Array.from(map.values())` lists, in insertion order, the row of every id from 1 up to the counter |
| Storage.OrderedInsert | server/storage.ts:76 | setting the next id appends that row to the listing |
| Storage.OrderedOverwrite | server/storage.ts:104 | setting an existing id replaces that row in place and moves nothing |
| Storage.UserByUsername | server/storage.ts:61-65 | no user when none has the username; otherwise the first user with it |
| Storage.UserByEmail | server/storage.ts:67-71 | no user when none has the email; otherwise the first user with it |
| Storage.PreferencesOf | server/storage.ts:84-88 | exactly the stored preferences of that user, and only stored ones |
| Storage.PreferencesOfAppend | server/storage.ts:84-88 | a new preference extends the user's list at its end if it is theirs, and leaves other users' lists as they were |
| Storage.PackagesInCategory | server/storage.ts:116-120 | exactly the packages whose categories include the category, in catalogue order |
| Storage.MergePreference | server/storage.ts:103 | `{...preference, ...patch}` keeps the row's id |
| Storage.MergeEmptyPatch | server/storage.ts:103 | an empty patch changes nothing |
| Storage.MergeIdempotent | server/storage.ts:103 | applying the same patch twice is the same as applying it once |
| Storage.MergeFullPatch | server/storage.ts:103 | a patch giving every field replaces all of them and keeps the id |
| Storage.MemStorage.Users | server/storage.ts:31-35 | the user table lists one row per id handed out, each at the position of its id |
| Storage.MemStorage.Preferences | server/storage.ts:32-36 | the preference table lists one row per id handed out, each at the position of its id |
| Storage.MemStorage.TravelPackages | server/storage.ts:33-37 | the package table lists one row per id handed out, each at the position of its id |
| Storage.MemStorage.constructor | server/storage.ts:40-55 | empty user and preference tables, counters at 1, and the six seed packages stored under ids 1 to 6 |
| Storage.MemStorage.SeedTravelPackages | server/storage.ts:129-262 | every seed package is created in order under consecutive ids, leaving users and preferences alone |
| Storage.MemStorage.GetUser | server/storage.ts:57-59 | a user exactly for the ids handed out, and it is the row with that id |
| Storage.MemStorage.GetUserByUsername | server/storage.ts:61-65 | the first user, in insertion order, with that username |
| Storage.MemStorage.GetUserByEmail | server/storage.ts:67-71 | the first user, in insertion order, with that email |
| Storage.MemStorage.CreateUser | server/storage.ts:73-78 | the user is stored under the next id, which is new and above every existing id; the counter advances; it is appended to the listing; the other tables stay unchanged |
| Storage.MemStorage.GetPreference | server/storage.ts:80-82 | a preference exactly for the ids handed out, and it is the row with that id |
| Storage.MemStorage.GetPreferencesByUserId | server/storage.ts:84-88 | the user's preferences in insertion order |
| Storage.MemStorage.CreatePreference | server/storage.ts:90-95 | the preference is stored under the next id, which is new and above every existing id; the counter advances; it is appended to the listing; the other tables stay unchanged |
| Storage.MemStorage.UpdatePreference | server/storage.ts:97-106 | fails with "Preference with id N not found" exactly for an unknown id, changing nothing; otherwise stores the merge in place and returns it, keeping position, counters and the other tables |
| Storage.MemStorage.GetTravelPackage | server/storage.ts:108-110 | a package exactly for the ids handed out, and it is the row with that id |
| Storage.MemStorage.GetTravelPackages | server/storage.ts:112-114 | the whole catalogue in insertion order |
| Storage.MemStorage.GetTravelPackagesByCategory | server/storage.ts:116-120 | the packages of that category, in catalogue order |
| Storage.MemStorage.CreateTravelPackage | server/storage.ts:122-127 | the package is stored under the next id; the counter advances; it is appended to the listing; the other tables stay unchanged |
| Storage.Rows | server/storage.ts:259-261 | seeding a list gives one row per insert record, with consecutive ids from the first |
| Storage.RowsAppend | server/storage.ts:259-261 | seeding one more record appends its row with the next id |
| Storage.MemStorage.CreateAll | server/storage.ts:259-261 | each insert record is created in order: the counter advances by their number, their rows with consecutive ids from the old counter are appended to the catalogue listing, and users and preferences stay unchanged |
| Seed.SeedPackages | server/storage.ts:130-257 | the seed catalogue has six packages |
| Routes.GetTravelPackages | server/routes.ts:13-20 | 200 with the whole catalogue in insertion order |
| Routes.GetTravelPackagesByCategory | server/routes.ts:23-31 | 200 with the packages of the category, in catalogue order |
| Routes.PackageResponse | server/routes.ts:34-47 | 200 with the package exactly when `parseInt` of the parameter is a stored id; otherwise 404 "Pacchetto di viaggio non trovato" |
| Routes.GetTravelPackage | server/routes.ts:34-47 | the handler answers as `PackageResponse` on the storage's table; a 200 package is in the catalogue |
| Routes.PackageServedAtItsId | server/routes.ts:34-47 | a stored package is served at the URL of its decimal id |
| Routes.NonNumericIdNotFound | server/routes.ts:34-47 | an id parameter that does not start like a number is answered 404 |
| Routes.GetPreferences | server/routes.ts:50-62 | 401 "Non autenticato" without a session; otherwise 200 with the user's preferences in insertion order |
| Routes.WithSessionUser | server/routes.ts:74-77 | `{...req.body, userId}`: `userId` is the session's, and every other key is the body's |
| Routes.PostPreference | server/routes.ts:65-87 | 401 without a session and 400 "Dati non validi" with the issues for an invalid body, storing nothing in either case; otherwise 201 with the new row, carrying the session's user id and appended to the table; users and packages are never touched |
| Routes.SessionUserIdOverridesBody | server/routes.ts:74-77 | whatever `userId` the body claims, validation sees the session's |
| Routes.JsonPreferenceAccepted | server/routes.ts:74-79 | the JSON form of any insert preference is accepted and stored as sent, under the session's user |
| Routes.GetRecommendations | server/routes.ts:90-139 | the handler answers as the pure recommendation response on the stored preferences and catalogue |
| Routes.LatestRecommendation | server/routes.ts:99-135 | with preferences stored, the answer is 200 with the recommendation for the last one |
| Routes.PreferencesOfIncreasing | server/routes.ts:97-104 | a user's preferences are listed in increasing id order |
| Routes.LatestPreferenceIsNewest | server/routes.ts:103-104 | the preference used is the user's, and has the largest id among theirs |
| Routes.RankedAnswer | server/routes.ts:110-133 | the packages chosen for a preference's interests: at most three, from the catalogue, ranked by relevance, each sharing an interest when interests are listed |
| Routes.RecommendationOutcomes | server/routes.ts:90-139 | 401 without a session; 404 "Nessuna preferenza trovata" for a user without preferences; otherwise 200 with at most three catalogue packages, ranked by relevance, each sharing an interest when interests are listed |
| StableSort.KeyClass | server/routes.ts:123-130 | the elements with a given key, in order: exactly those of the sequence with that key |
| StableSort.Insert | server/routes.ts:123-130 | insertion adds exactly one element and keeps the others |
| StableSort.InsertKeepsSorted | server/routes.ts:123-130 | inserting into a descending sequence keeps it descending |
| StableSort.Sort | server/routes.ts:123-130 | the comparator `b - a` sorts descending by key, and the result is a permutation of the input |
| StableSort.InsertStable | server/routes.ts:123-130 | an inserted element goes after every element with an equal key |
| StableSort.SortStable | server/routes.ts:123-130 | elements with equal keys keep their relative order |
| StableSort.SortKeepsSorted | server/routes.ts:123-130 | an already ordered list is left as it is |
| StableSort.SortedClassesEqual | server/routes.ts:123-130 | two descending sequences with the same equal-key classes are equal |
| StableSort.StableSortUnique | server/routes.ts:123-130 | any descending ordering that keeps ties in order is the sort's result, so the specification fixes the order completely |
| StableSort.InsertPosition | server/routes.ts:123-130 | the insertion point is just after the last element with a key at least the new one's |
| StableSort.SortSnoc | server/routes.ts:123-130 | sorting one more element inserts it into the sorted prefix |
| StableSort.InsertAt | server/routes.ts:123-130 | shifting in place inserts `a[i]` into the sorted prefix `a[..i]` as the specification does, and leaves the rest of the array alone |
| Ranking.SharedCount | server/routes.ts:124-127 | the count of shared categories is at most the number of categories |
| Ranking.SharedCountIsFilterLength | server/routes.ts:124-127 | the count is `categories.filter(c => interests.includes(c)).length` |
| Ranking.Relevance | server/routes.ts:124-127 | the key is 0 without categories or interests, and otherwise at most the number of categories |
| Ranking.SharedCountPositive | server/routes.ts:114-119 | the count is positive exactly when some category is an interest |
| Ranking.RelevantIffMatches | server/routes.ts:112-127 | a package has positive relevance exactly when it passes the interest filter |
| Ranking.SortByRelevance | server/routes.ts:123-130 | the in-place sort leaves the array as the stable descending sort by relevance of its old contents |
| Ranking.MatchingPackages | server/routes.ts:112-120 | exactly the catalogue packages that share a category with the interests |
| Ranking.Recommend | server/routes.ts:110-133 | at most three packages, as many as there are candidates below that bound, ranked by relevance and all from the catalogue |
| Ranking.RecommendPackages | server/routes.ts:110-133 | filtering, sorting the array in place and slicing give the specified recommendation |
| Ranking.RecommendMatches | server/routes.ts:112-120 | with interests listed, every recommendation has categories and shares at least one of them |
| Ranking.RecommendWithoutInterests | server/routes.ts:110-133 | with no interests (null or empty), the answer is the first three catalogue packages |
| Ranking.RecommendBest | server/routes.ts:123-133 | a candidate more relevant than a recommended package is recommended too |
| Ranking.RecommendKeepsTies | server/routes.ts:123-133 | the recommendations of each relevance are the first candidates of that relevance, in catalogue order |
| ResultsPage.SpinnerMessage | client/src/pages/results-page.tsx:119-123 | the spinner text for STARTED, for RUNNING and for no status yet; no text for COMPLETED or ERROR |
| ResultsPage.View | client/src/pages/results-page.tsx:113-253 | content lists a section only when it is an array whose entries can be read; a listed section that cannot be mapped never yields content |
| ResultsPage.ViewDecision | client/src/pages/results-page.tsx:113-253 | a spinner exactly while loading, then the error view exactly for a set error, then "no results" exactly for an empty result, then a thrown render exactly when a listed section cannot be mapped, else content with an accommodation or packages |
| ResultsPage.StringPackagesThrow | client/src/pages/results-page.tsx:249-253 | a non-empty string under `packages` passes the section guard and throws at `.map` |
| ResultsPage.LengthKeyObjectThrows | client/src/pages/results-page.tsx:222-226 | an object with a positive numeric `length` under `esperienze` passes the guard and throws at `.map` |
| ResultsPage.NullPackageThrows | client/src/pages/results-page.tsx:253-254 | a `null` entry in the package list throws at its first property read |
| ResultsPage.ExperiencesOnlyIsEmpty | client/src/pages/results-page.tsx:150 | a result holding only `esperienze` shows "no results" |
| ResultsPage.EmptyPackagesShowsBlankContent | client/src/pages/results-page.tsx:150-249 | `{packages: []}` passes the emptiness test but lists no section |
| ResultsPage.Page.constructor | client/src/pages/results-page.tsx:22-26 | the first render: loading, with no status, results, error or interval |
| ResultsPage.Page.RunEffect | client/src/pages/results-page.tsx:29-95 | a missing or empty job id sets "ID processo di ricerca mancante" and stops loading, with no query and no timer; otherwise one status query, one timer, and its handle stored |
| ResultsPage.Page.Tick | client/src/pages/results-page.tsx:86 | every tick of the timer issues one more status query and changes no state |
| ResultsPage.Page.OnStatusReply | client/src/pages/results-page.tsx:37-61 | STARTED or RUNNING (or any other status) only records the status; COMPLETED clears the interval state and starts one result load; ERROR and a failed check set their messages, clear the interval state and stop loading; no timer is ever stopped |
| ResultsPage.Page.OnResultReply | client/src/pages/results-page.tsx:64-80 | success stores the data and stops loading; failure sets the load error, stops loading and raises the destructive toast |
| ResultsPage.Page.StartRefresh | client/src/pages/results-page.tsx:98-100 | refresh sets loading and clears the error, then issues one result load |
| ResultsPage.Page.FinishRefresh | client/src/pages/results-page.tsx:102-110 | refresh ends with the data or its own error message, and stops loading; status and interval untouched |
| ResultsPage.Page.Unmount | client/src/pages/results-page.tsx:90-94 | the cleanup tests the captured `null` and stops no timer |
| ResultsPage.CompletedRun | client/src/pages/results-page.tsx:37-95 | after completion and a loaded result, the page shows the result while the timer still runs and queries again |
| ResultsPage.CompletionReloads | client/src/pages/results-page.tsx:42-86 | two COMPLETED answers cause two result loads |
| PreferenceForm.Required | client/src/components/preference-form.tsx:34-46 | `min(1)` reports its message exactly for the empty string |
| PreferenceForm.InterestIssues | client/src/components/preference-form.tsx:41 | no interest issue exactly for one to three interests, and at most one issue |
| PreferenceForm.Issues | client/src/components/preference-form.tsx:33-47 | no issue exactly when every required field is non-empty and one to three interests are chosen |
| PreferenceForm.OptionalCitiesIgnored | client/src/components/preference-form.tsx:35-45 | the specific and departure cities never change the verdict |
| PreferenceForm.DefaultsRejected | client/src/components/preference-form.tsx:58-72 | the default values fail, with exactly the messages of the seven empty fields and the interest minimum |
| PreferenceForm.Toggle | client/src/components/preference-form.tsx:304-312 | ticking appends the id; unticking leaves it out |
| PreferenceForm.UncheckRemovesOnlyId | client/src/components/preference-form.tsx:308-311 | unticking removes every occurrence of the id and keeps every other id as often as before |
| PreferenceForm.CheckThenUncheck | client/src/components/preference-form.tsx:304-312 | unticking right after ticking a new id restores the list |
| PreferenceForm.FourthInterestRejected | client/src/components/preference-form.tsx:41 | the checkbox handler (line 307) lets a fourth tick through, and the schema's maximum of three then rejects the form |
| PreferenceForm.SelectOptionsParse | client/src/components/preference-form.tsx:219-269 | `parseInt` of each option is its number: adults 1 to 4, children 0 to 3, infants 0 to 2 |
| PreferenceForm.DigitParses | client/src/components/preference-form.tsx:83-85 | `parseInt` reads a one-digit string as its digit |
| PreferenceForm.ToInsertPreference | client/src/components/preference-form.tsx:78-93 | user id 0; the three counts through `parseInt`; every other form field carried into its column unchanged: destination, dates, interests, accommodation type, star rating, transport, budget and both cities |
| PreferenceForm.SubmittedCounts | client/src/components/preference-form.tsx:83-85 | a form filled through the selects submits the counts chosen |
| PreferenceForm.SubmissionAccepted | client/src/components/preference-form.tsx:76-95 | the server's schema accepts what the form sends and stores it unchanged under the session's user |
| Api.Authorized | client/src/lib/api.ts:16-25 | a stored non-empty `auth_token` becomes `Authorization: Bearer <token>`; otherwise the request is unchanged; nothing else about the request changes |
| Api.AfterResponse | client/src/lib/api.ts:29-35 | a truthy `data?.access_token` is stored as `auth_token` in string form; no other key changes; otherwise the store is unchanged |
| Api.AfterError | client/src/lib/api.ts:36-42 | a 401 removes `auth_token`; any other error leaves the store unchanged |
| Api.LogoutRequest | client/src/lib/api.ts:58-59 | the logout body carries the stored refresh token, or `null` |
| Api.BearerAfterLogin | client/src/lib/api.ts:18-33 | after a response with a token, the next request carries that token |
| Api.NoBearerAfterUnauthorized | client/src/lib/api.ts:18-40 | after a 401 the next request goes out without a token |
| Api.NumericTokenSentAsDecimal | client/src/lib/api.ts:32 | a numeric token is stored and sent in decimal |
| Api.ApiClient.constructor | client/src/lib/api.ts:8-13 | the client starts on the given store |
| Api.ApiClient.InterceptRequest | client/src/lib/api.ts:16-25 | the request interceptor is `Authorized` on the current store |
| Api.ApiClient.InterceptResponse | client/src/lib/api.ts:29-35 | the store becomes `AfterResponse` of the old store |
| Api.ApiClient.InterceptError | client/src/lib/api.ts:36-42 | the error is rejected unchanged and the store becomes `AfterError` of the old store |
| Api.ApiClient.Logout | client/src/lib/api.ts:56-67 | the refresh token is sent. On success both tokens are removed, whatever the response held. On failure the error is rethrown and the refresh token kept; `auth_token` is dropped only for a 401 |
| Api.RequestAfterLogout | client/src/lib/api.ts:18-62 | after a successful logout the next request goes out without a token |

## Left out

- The error answers 500 of every route (server/routes.ts:17-19, 28-30, 44-46, 59-61, 85, 136-138) are not modelled. None of the modelled storage operations can throw, so those branches are unreachable here.
- Authentication is not part of this model: `setupAuth`, login and `req.isAuthenticated()`. The session is an input, `Option<int>`, and `None` means not logged in.
- The session store of `MemStorage` (`express-session` with `memorystore`) is not part of this model.
- Storage.MemStorage.CreateUser: does not enforce the `unique` constraints on username and email. `MemStorage` does not check them either; only a database would.
- Storage.MemStorage.CreatePreference: does not apply the column defaults (adults 1, children 0, infants 0, `isRecommended` false). `MemStorage` stores the object as given; the defaults are recorded as constants in `schema.dfy`.
- The insert schemas for users and travel packages (`insertUserSchema`, `insertTravelPackageSchema`) are not modelled as validators. No modelled route parses those bodies.
- Numbers are integers. Fractions, `NaN` in stored rows, `Infinity` and the loss of precision of 64-bit floats above 2^53 are not modelled. `parseInt`'s NaN is `None`, which is looked up as a missing id. A NaN count from the form is sent as JSON `null`.
- zod's error objects (code, path, message) are reduced to field, element index and expected type. zod's stripping of unknown keys is built into the body type: only the columns are represented.
- JSON distinguishes a missing key from `null`; the model does not, because both read as `None` in every nullable column.
- The job-status and job-result calls (`getJobStatus`, `getJobResult`) are imported by the results page but are not defined in `client/src/lib/api.ts`. Their answers are parameters of the reply methods.
- `useSearchParams` returns a `URLSearchParams`; destructuring `jobId` from it gives `undefined` at run time. The job id is an optional input, so both the missing and the present case are modelled.
- Real time is not modelled. The 5-second period is not represented; a tick is an event.
- Also left out:
  - the markup of every page and console logging;
  - the "Job ID" line under the spinner;
  - the details inside each content section, and the "Nuova ricerca" navigation.
- ResultsPage.View: a section's inner rendering is not modelled, so a render that throws because an entry's field is itself an object (not a valid React child) is shown as content. An object whose `length` key is a numeric string is taken as not listed, while JavaScript would coerce the string and compare it with 0.
- The preference form's mutation is not modelled: `apiRequest`, the toasts on success or error, and the `redirect` flag (UI state).
- The API functions of `client/src/lib/api.ts` other than the interceptors and `logout` are not modelled: `login`, `getUser`, the package and booking calls. They only forward to the transport. The request interceptor's error handler, which rejects the error it receives, is also left out.
- `updatePreference` is modelled in storage, but no route calls it.
