# Smart Insurance Portal — a Dafny model of its client-side core

The portal lets an applicant pick an insurance form, fill it in through a
schema-driven form interpreter, save drafts locally, and submit. It also
shows submitted applications in a searchable, filterable, sortable and
paged table. This project models the logic behind those screens and proves
properties of it:

- **DynamicForm** (`dynamic_form.dfy`) is the form interpreter. It covers
  - the ordered field checks (required, then number min, then max, then pattern);
  - the `equals` / `not_equals` visibility rule;
  - the whole-form validation walk, as a specification function and as the
    source's accumulating walk;
  - the rendering walk, reduced to the list of fields on screen;
  - the checkbox add/remove step.
- **FormSession** (`form_session.dfy`) is the state of one open form: form
  data, errors, the draft flag and the selected country. Its event handlers
  are class methods over a key/value draft store.
- **ApplicationsList** (`applications_list.dfy`) is the table engine.
  - It runs the filter → stable sort → page slice pipeline over
    string-keyed rows.
  - It does the page arithmetic and drives the page controls.
  - It computes the status badge text.
  - It holds the table's own state: search term, status filter, sort
    column and direction, page, and column configurations.
- **MockApi** (`mock_api.dfy`) is the in-memory backend. It holds
  - the three insurance form schemas;
  - the states of each country;
  - the submission list that `submitForm` appends to;
  - the projection of a submission into a table row.
- **App** (`app.dfy`) is the navigation state machine: view, selected form
  and notification. It also decides which screen the state shows.
- **ApiHooks** (`use_api.dfy`) holds the hook side: query keys, `enabled`
  guards, per-hook options, and prefix invalidation after a mutation.
- **QueryProvider** (`query_provider.dfy`) holds the client defaults: the
  status-aware retry predicate, capped exponential back-off and the mutation
  defaults. It also holds the retry loop those options drive.
- **Types**, **Text** and **Wrappers** hold the data model and the
  JavaScript string and number conversions the code relies on.

JavaScript semantics the code depends on are written out:

- truthiness (`undefined`, `''` and `0` are falsy, every array is truthy);
- strict equality;
- `Number()`, as an optional integer, with None for NaN;
- `String()` of numbers and arrays;
- `slice` with negative indices;
- `Math.ceil`;
- `trim`;
- the stability of `Array.prototype.sort`.

These are passed in as parameters rather than modelled:

- the regular-expression engine;
- the clock;
- locale formatting;
- whether an asynchronous call succeeds.

React state updates and effects become methods on classes, with `modifies`
clauses and postconditions over `old` state. The retry loop follows the
query library's retryer. It consults the policy with the number of failures
counted so far, waits the delay for that count, then counts the failure.

## Model

| member | source | states |
|---|---|---|
| Types.StatusName | src/types/index.ts:36 | a status has one of the three wire names pending, approved, rejected |
| Types.StatusNameInjective | src/types/index.ts:36 | distinct statuses have distinct names |
| Text.NatToString | src/services/mockApi.ts:301 | `String(n)` for a non-negative integer: at least one decimal digit, no leading zero |
| Text.IntToString | src/components/DynamicForm.tsx:67 | `String(i)`: non-empty, and starts with '-' exactly for negatives |
| Text.DigitsOfNat | src/services/mockApi.ts:301 | the digits printed for n read back as n |
| Text.ParseNumber | src/components/DynamicForm.tsx:65 | `Number(s)`: '' is 0, a digit string is its value |
| Text.ParsePrinted | src/components/DynamicForm.tsx:65 | `Number(String(i)) == i` for every integer i |
| Text.Lower | src/components/ApplicationsList.tsx:39 | `toLowerCase` keeps the length and maps each character |
| Text.ContainsEmpty | src/components/ApplicationsList.tsx:39 | every string contains the empty string (used by ApplicationsList.EmptySearchShortCircuit) |
| Text.ContainsSelf | src/components/ApplicationsList.tsx:39 | every string contains itself |
| Text.LowerIdempotent | src/components/ApplicationsList.tsx:39 | lower-casing twice is lower-casing once |
| Text.TrimStart | src/services/mockApi.ts:324 | removes exactly the leading white space |
| Text.TrimEnd | src/services/mockApi.ts:324 | removes exactly the trailing white space |
| Text.Trim | src/services/mockApi.ts:324 | the result is an infix of the input, neither starting nor ending with white space, with only white space cut off either side |
| Text.TrimmedIsFixed | src/services/mockApi.ts:324 | a string without white space at either end is its own trim |
| Text.StrLtIrreflexive | src/components/ApplicationsList.tsx:52-53 | no string sorts before itself |
| Text.StrLtTransitive | src/components/ApplicationsList.tsx:52-53 | string order is transitive |
| Text.StrLtTotal | src/components/ApplicationsList.tsx:52-53 | of two distinct strings, one sorts first |
| DynamicForm.Get | src/components/DynamicForm.tsx:94 | `formData[id]` is defined iff the id is a key, and is its value then |
| DynamicForm.ValidateField | src/components/DynamicForm.tsx:56-83 | the message is non-empty exactly when one of the required, min, max or pattern checks fails (which message wins is DynamicForm.FirstFailureWins) |
| DynamicForm.FirstFailureWins | src/components/DynamicForm.tsx:56-83 | the message is the required message if required fails, else min, else max, else pattern, else '' |
| DynamicForm.RequiredIffBlank | src/components/DynamicForm.tsx:57-59 | for a required field the message is exactly "{label} is required" iff the value is undefined, falsy or an empty list |
| DynamicForm.BoundsOnlyForNumbers | src/components/DynamicForm.tsx:64-72 | min and max never fire on a field that is not of type number |
| DynamicForm.PatternOnlyForNonEmpty | src/components/DynamicForm.tsx:74-79 | the pattern is not consulted for a falsy value |
| DynamicForm.NaNPassesBounds | src/components/DynamicForm.tsx:65-71 | a value `Number` cannot parse passes both bounds |
| DynamicForm.ClearedNumberFailsMin | src/components/DynamicForm.tsx:64-68 | a cleared non-required number input with a positive min fails the min check |
| DynamicForm.IsFieldVisible | src/components/DynamicForm.tsx:107-120 | no rule means visible; when the field it depends on is undefined, or holds a number or a list, the field shows exactly unless the rule is `equals` |
| DynamicForm.EqualsNotEqualsComplement | src/components/DynamicForm.tsx:107-120 | for the same rule, equals and not_equals give opposite answers |
| DynamicForm.NumberNeverEqualsText | src/components/DynamicForm.tsx:113-114 | strict equality: a number never satisfies an equals rule |
| DynamicForm.ValidatedFields | src/components/DynamicForm.tsx:88-101 | every field the walk checks is visible by its own rule and is not a group with children |
| DynamicForm.RecordErrorsKeys | src/components/DynamicForm.tsx:94-97 | a recorded error key is an earlier key or the id of a leaf with a non-empty message |
| DynamicForm.RecordErrorsNonEmpty | src/components/DynamicForm.tsx:95-96 | only non-empty messages are recorded |
| DynamicForm.RecordErrorsValue | src/components/DynamicForm.tsx:94-97 | with distinct ids, a failing leaf's entry is its own message |
| DynamicForm.RecordErrorsUntouched | src/components/DynamicForm.tsx:94-97 | keys that no leaf names keep their earlier entry |
| DynamicForm.FormErrorsKeys | src/components/DynamicForm.tsx:85-105 | validateForm has an entry exactly for each validated field whose message is non-empty |
| DynamicForm.FormErrors | src/components/DynamicForm.tsx:85-105 | every entry validateForm returns is a non-empty message (its keys are DynamicForm.FormErrorsKeys, its values DynamicForm.FormErrorsValue) |
| DynamicForm.FormErrorsValue | src/components/DynamicForm.tsx:85-105 | with distinct ids, each failing validated field's entry is its message |
| DynamicForm.ValidateForm | src/components/DynamicForm.tsx:85-105 | the accumulating walk returns exactly the specified error map |
| DynamicForm.ValidateFieldsRecursively | src/components/DynamicForm.tsx:88-101 | the recursive `forEach` walk adds to the accumulator exactly what the specification records |
| DynamicForm.HiddenFieldNotValidated | src/components/DynamicForm.tsx:93 | a field hidden by its own rule is never validated |
| DynamicForm.RenderedFields | src/components/DynamicForm.tsx:165-189 | every rendered field is visible by its own rule |
| DynamicForm.RenderedIds | src/components/DynamicForm.tsx:165-189 | the rendered ids are the ids of the rendered fields, in order |
| DynamicForm.RenderedIff | src/components/DynamicForm.tsx:166-186 | a field is rendered iff it and every enclosing group are visible |
| DynamicForm.ValidatedIff | src/components/DynamicForm.tsx:88-101 | a field is validated iff it is a visible leaf below groups with children, whatever those groups' rules say |
| DynamicForm.RenderedInputIsValidated | src/components/DynamicForm.tsx:90-93 | every rendered input is validated |
| DynamicForm.HiddenGroupStillValidated | src/components/DynamicForm.tsx:90-91 | a required leaf inside a hidden group is not rendered, yet its error is reported |
| DynamicForm.CheckOption | src/components/DynamicForm.tsx:279 | checking appends the option at the end |
| DynamicForm.UncheckOption | src/components/DynamicForm.tsx:280 | unchecking removes every occurrence of the option and keeps all other items in order |
| DynamicForm.UncheckDistributes | src/components/DynamicForm.tsx:280 | unchecking distributes over concatenation |
| DynamicForm.CheckThenUncheck | src/components/DynamicForm.tsx:276-281 | checking then unchecking an absent option restores the list |
| DynamicForm.ToggleOption | src/components/DynamicForm.tsx:275-281 | after the change the box for the option reads as checked exactly when it was checked, every other option keeps its state, and checking appends to the current list (none for a field not holding a list) |
| FormSession.DraftKey | src/components/DynamicForm.tsx:27 | the draft key is "draft_" followed by the form id |
| FormSession.DraftKeyInjective | src/components/DynamicForm.tsx:27 | distinct forms use distinct draft keys |
| FormSession.DraftStorage.constructor | src/components/DynamicForm.tsx:28 | the store starts empty |
| FormSession.DraftStorage.GetItem | src/components/DynamicForm.tsx:28 | reads the stored item, none when the key is absent |
| FormSession.DraftStorage.SetItem | src/components/DynamicForm.tsx:42 | writes one key, leaving the others |
| FormSession.DraftStorage.RemoveItem | src/components/DynamicForm.tsx:157 | removes one key, leaving the others |
| FormSession.ChangedData | src/components/DynamicForm.tsx:122-142 | the field is set; changing country also clears a truthy state to ''; no other key changes |
| FormSession.Session.constructor | src/components/DynamicForm.tsx:17-20 | empty data and errors, no draft, no country |
| FormSession.Session.RestoreDraft | src/components/DynamicForm.tsx:26-38 | a parseable draft sets the data and the draft flag only; a missing or malformed draft changes nothing |
| FormSession.Session.SaveDraft | src/components/DynamicForm.tsx:40-44 | writes the data under the draft key and sets the draft flag |
| FormSession.Session.AutoSaveTimerFired | src/components/DynamicForm.tsx:46-54 | saves only when the data has at least one key |
| FormSession.Session.HandleInputChange | src/components/DynamicForm.tsx:122-145 | sets the field, clears only that field's error, tracks the country, clears the draft flag |
| FormSession.Session.ToggleCheckbox | src/components/DynamicForm.tsx:276-282 | the checkbox step followed by an input change with the new list |
| FormSession.Session.HandleSubmit | src/components/DynamicForm.tsx:147-163 | errors become validateForm's result; the draft is removed only if there are none and onSubmit resolved |
| FormSession.ResumeAfterSave | src/components/DynamicForm.tsx:26-44 | a form reopened after a save restores the saved data as a draft |
| FormSession.ResumeAfterSubmit | src/components/DynamicForm.tsx:147-163 | a form reopened after a successful submit starts empty |
| ApplicationsList.InitialConfigs | src/components/ApplicationsList.tsx:22-27 | one config per column in order, key = label = column, sortable, visible iff a default column |
| ApplicationsList.VisibleColumns | src/components/ApplicationsList.tsx:33 | exactly the visible configs |
| ApplicationsList.ToggleVisibility | src/components/ApplicationsList.tsx:77-83 | flips visible on the matching keys only, keeping order and every other field |
| ApplicationsList.ToggleTwice | src/components/ApplicationsList.tsx:77-83 | toggling twice is the identity |
| ApplicationsList.MatchesSearch | src/components/ApplicationsList.tsx:37-40 | the empty term matches every row; on a row with values, a match is some lower-cased value containing the lower-cased term; a row holding the term as a whole value matches |
| ApplicationsList.EmptySearchShortCircuit | src/components/ApplicationsList.tsx:37-40 | on a row with at least one value the empty term also passes the containment test, so the `searchTerm === ''` short cut decides only rows without values |
| ApplicationsList.WholeValueContainsTerm | src/components/ApplicationsList.tsx:38-40 | a value equal to the term contains it after lower-casing |
| ApplicationsList.SearchIgnoresCase | src/components/ApplicationsList.tsx:39 | searching for a term and for its lower-cased form keeps the same rows |
| ApplicationsList.MatchesStatus | src/components/ApplicationsList.tsx:42 | the empty filter keeps every row; a row without a status is kept by no other filter |
| ApplicationsList.FilterSplits | src/components/ApplicationsList.tsx:36-45 | keeping rows that match both (`Keep`) is the search filter followed by the status filter |
| ApplicationsList.FilterRows | src/components/ApplicationsList.tsx:36-45 | an order-preserving subsequence holding each matching row as often as the input and no other row |
| ApplicationsList.InOrder | src/components/ApplicationsList.tsx:48-55 | rows compare by `SortKey` (the value under the sort column); equal keys are in order either way, as the comparator returns 0 for them |
| ApplicationsList.InOrderTotal | src/components/ApplicationsList.tsx:48-55 | any two rows can be ordered |
| ApplicationsList.InOrderTransitive | src/components/ApplicationsList.tsx:48-55 | the comparator's order is transitive |
| ApplicationsList.Insert | src/components/ApplicationsList.tsx:48-55 | inserting adds exactly one row |
| ApplicationsList.SortRows | src/components/ApplicationsList.tsx:47-56 | the sort is a permutation of its input |
| ApplicationsList.InsertSorted | src/components/ApplicationsList.tsx:48-55 | inserting into a sorted list keeps it sorted |
| ApplicationsList.SortRowsSorted | src/components/ApplicationsList.tsx:47-56 | the sorted rows are ordered by the column in the chosen direction |
| ApplicationsList.InsertWithKey | src/components/ApplicationsList.tsx:48-55 | inserting puts the row after every earlier row with the same key |
| ApplicationsList.SortRowsStable | src/components/ApplicationsList.tsx:48-55 | rows with equal keys keep their input order |
| ApplicationsList.DescendingIsNotReversedAscending | src/components/ApplicationsList.tsx:48-55 | with a tie, descending order is not ascending order reversed |
| ApplicationsList.FilteredAndSorted | src/components/ApplicationsList.tsx:35-59 | no sort column keeps the filtered order; otherwise a sorted, stable permutation of the filtered rows |
| ApplicationsList.SliceIndex | src/components/ApplicationsList.tsx:63 | `slice` resolves an in-range index to itself and clamps the others |
| ApplicationsList.Slice | src/components/ApplicationsList.tsx:63 | `slice` with in-range bounds is that infix, with an empty or reversed range is empty, and never holds more than `end - begin` elements |
| ApplicationsList.Paginate | src/components/ApplicationsList.tsx:61-64 | at most n rows: those in [(p-1)n, (p-1)n+n) clipped to the length |
| ApplicationsList.TotalPages | src/components/ApplicationsList.tsx:66 | the least page count that covers every row |
| ApplicationsList.PageBeyondEndIsEmpty | src/components/ApplicationsList.tsx:61-66 | a page past the last is empty |
| ApplicationsList.PageSizes | src/components/ApplicationsList.tsx:61-66 | every page from 1 to the last holds min(n, rows left) rows, so none is empty |
| ApplicationsList.TwentyFiveRows | src/components/ApplicationsList.tsx:13-66 | 25 rows at 10 per page give pages of 10, 10 and 5 rows |
| ApplicationsList.PreviousPage | src/components/ApplicationsList.tsx:257 | `max(1, p - 1)` |
| ApplicationsList.NextPage | src/components/ApplicationsList.tsx:282 | `min(totalPages, p + 1)` |
| ApplicationsList.PageControlsStayInRange | src/components/ApplicationsList.tsx:257-282 | a page in [1, totalPages] stays there under Previous and Next |
| ApplicationsList.PageButtons | src/components/ApplicationsList.tsx:264-265 | buttons for pages 1 to min(5, totalPages) |
| ApplicationsList.StatusBadgeText | src/components/ApplicationsList.tsx:94 | the first character upper-cased, the rest unchanged |
| ApplicationsList.BadgeTexts | src/components/ApplicationsList.tsx:94 | the three statuses show as Pending, Approved, Rejected |
| ApplicationsList.SortAfterClick | src/components/ApplicationsList.tsx:68-75 | the same column flips the direction; another column starts ascending |
| ApplicationsList.SortClickedTwice | src/components/ApplicationsList.tsx:68-75 | two clicks on the sort column restore the direction; a new column clicked twice is descending |
| ApplicationsList.TableState.constructor | src/components/ApplicationsList.tsx:7-14 | empty search, filter and sort column, ascending, page 1, no configs |
| ApplicationsList.TableState.CurrentRows | src/components/ApplicationsList.tsx:61-64 | on a page from 1 to the last, the shown (filtered and sorted) rows from index (page - 1) * 10, at most 10 of them and clipped at the end, never empty; past the last page, none |
| ApplicationsList.TableState.InitColumnConfigs | src/components/ApplicationsList.tsx:20-30 | configs are built only when columns arrive and none exist yet |
| ApplicationsList.TableState.HandleSort | src/components/ApplicationsList.tsx:68-75 | steps the sort state as the click rule says, nothing else |
| ApplicationsList.TableState.ClickHeader | src/components/ApplicationsList.tsx:214 | only a sortable column's header sorts |
| ApplicationsList.TableState.ToggleColumnVisibility | src/components/ApplicationsList.tsx:77-83 | only the configs change |
| ApplicationsList.TableState.SetSearchTerm | src/components/ApplicationsList.tsx:145 | sets the term and does not reset the page |
| ApplicationsList.TableState.SetStatusFilter | src/components/ApplicationsList.tsx:155 | sets the filter and does not reset the page |
| ApplicationsList.TableState.ToggleColumnSelector | src/components/ApplicationsList.tsx:169 | flips the selector's visibility only |
| ApplicationsList.TableState.ClickPrevious | src/components/ApplicationsList.tsx:247-257 | drawn only for more than one page; the page becomes `max(1, p - 1)` |
| ApplicationsList.TableState.ClickNext | src/components/ApplicationsList.tsx:247-282 | drawn only for more than one page; the page becomes `min(totalPages, p + 1)` over the shown rows |
| ApplicationsList.TableState.ClickPage | src/components/ApplicationsList.tsx:247-269 | drawn only for more than one page; one of the numbered buttons selects its page |
| MockApi.GetStates | src/services/mockApi.ts:293-296 | the table entry (lines 231-236) for a known country; the result is non-empty exactly when the health form offers the country |
| MockApi.CountryField | src/services/mockApi.ts:46-52 | the health form's address group holds a required select with id `country` offering USA, Canada, Germany and France |
| MockApi.SubmissionIdIsTimestamp | src/services/mockApi.ts:301 | a new id reads back as the clock, and distinct clock readings give distinct ids |
| MockApi.InsuranceType | src/services/mockApi.ts:316-325 | Health, Home or Car for the three form ids, Unknown for any other |
| MockApi.FixtureFormsHaveTypes | src/services/mockApi.ts:316-320 | each fixture form gets its own type |
| MockApi.TextOr | src/services/mockApi.ts:324-333 | `v || fallback` in a template: a falsy value gives the fallback, a truthy text or number prints non-empty, and an empty list, being truthy, prints as '' |
| MockApi.FullName | src/services/mockApi.ts:324 | the Full Name column is never empty |
| MockApi.FullNameWithoutNames | src/services/mockApi.ts:324 | it is N/A when both names are missing |
| MockApi.FullNameWithoutFirstName | src/services/mockApi.ts:324 | with only a last name it is "N/A last" |
| MockApi.FullNameOfNames | src/services/mockApi.ts:324 | trimmed names give "first last" |
| MockApi.Vehicle | src/services/mockApi.ts:330-331 | "make model" only when both are truthy, else N/A |
| MockApi.PropertyValue | src/services/mockApi.ts:329 | a set home value gives '$' followed by its formatted text, an unset (falsy) one gives N/A; so the text starts with '$' iff a home value is set |
| MockApi.RowOf | src/services/mockApi.ts:322-333 | a row has exactly the id and the eight column keys |
| MockApi.ProjectRow | src/services/mockApi.ts:322-333 | every column is a key; id and status copied; City and Country default to N/A; name never empty |
| MockApi.SeedRowHealthName | src/services/mockApi.ts:244-245 | the first seed submission shows as "John Doe" |
| MockApi.SeedRowHealthNoAssets | src/services/mockApi.ts:240-255 | the first seed row has no property value or vehicle |
| MockApi.SeedRowHome | src/services/mockApi.ts:256-268 | the home seed row has no name or city and shows its formatted value |
| MockApi.SeedRowCar | src/services/mockApi.ts:269-281 | the car seed row shows "Toyota Camry" as a Car application |
| MockApi.MockBackend.constructor | src/services/mockApi.ts:239-282 | the backend starts with the three seed submissions |
| MockApi.MockBackend.SubmitForm | src/services/mockApi.ts:298-309 | appends one pending submission with the given form id and data, and returns success with its id |
| MockApi.MockBackend.GetSubmissions | src/services/mockApi.ts:311-339 | the eight columns, and one projected row per submission in store order |
| MockApi.SubmitThenList | src/services/mockApi.ts:298-339 | a submission appears as a last pending row with the new id; earlier rows are unchanged |
| MockApi.ValidatedFieldsIds | src/services/mockApi.ts:172-214 | no field before the accident count is named accident_count |
| MockApi.CarFormWithoutAccidents | src/services/mockApi.ts:209-225 | answering No to accidents never reports the accident count missing |
| MockApi.HomeValueBounds | src/services/mockApi.ts:131-139 | any whole number typed into the home value gets the min message below 50000, the max message above 5000000, and passes in between: both bounds are inclusive |
| MockApi.DefaultColumnsShown | src/services/mockApi.ts:337 | the first column list shows exactly the five default columns |
| App.Render | src/App.tsx:54-165 | the error screen exactly when the forms fetch failed; otherwise a page whose main area holds at most one thing, the spinner exactly while loading |
| App.ErrorScreenAndChrome | src/App.tsx:54-96 | a fetch error shows the error screen in every view; otherwise the back button shows iff the view is not home |
| App.NothingWhileLoading | src/App.tsx:146-149 | while loading nothing view-specific is shown |
| App.ContentFollowsView | src/App.tsx:146-165 | selector iff home, list iff applications, form iff forms with a form selected |
| App.Portal.constructor | src/App.tsx:12-17 | home view, no form, no notification |
| App.Portal.ExactlyOneContent | src/App.tsx:146-165 | a loaded page shows exactly one content component |
| App.Portal.HandleFormSelect | src/App.tsx:43-46 | selects the form and moves to the forms view |
| App.Portal.HandleBackToHome | src/App.tsx:48-51 | moves home and clears the selection |
| App.Portal.NavNewApplication | src/App.tsx:101 | changes only the view, to home |
| App.Portal.NavMyApplications | src/App.tsx:111 | changes only the view, to applications |
| App.Portal.NotificationTimerFired | src/App.tsx:25 | clears the notification only |
| App.Portal.HandleFormSubmit | src/App.tsx:28-41 | always resolves; on success it notifies, moves to applications and clears the selection; on failure it notifies and changes nothing else |
| App.SubmitFromForm | src/App.tsx:28-41 | valid data is handed to the portal and the draft is removed even when the submission failed |
| ApiHooks.FormKey | src/hooks/useApi.ts:8 | the key is exactly two elements: the forms key, then the form id |
| ApiHooks.StatesKey | src/hooks/useApi.ts:10 | the key is exactly two elements: `'states'`, then the country |
| ApiHooks.SubmissionsPageKey | src/hooks/useApi.ts:39 | the key is the submissions key followed by the page and the limit, each `undefined` when not given |
| ApiHooks.KeysInjective | src/hooks/useApi.ts:6-11 | distinct arguments give distinct keys |
| ApiHooks.KeyFamiliesDisjoint | src/hooks/useApi.ts:6-11 | form, states and submissions keys never collide |
| ApiHooks.MutationRefreshesSubmissions | src/hooks/useApi.ts:67 | invalidating `['submissions']` hits every submissions page and no forms or states query |
| ApiHooks.UseForms | src/hooks/useApi.ts:14-23 | the forms query: always enabled, three retries, back-off |
| ApiHooks.UseForm | src/hooks/useApi.ts:26-34 | enabled iff the form id is non-empty |
| ApiHooks.UseSubmissions | src/hooks/useApi.ts:37-45 | keyed by page and limit, and invalidated by every mutation |
| ApiHooks.UseStates | src/hooks/useApi.ts:48-56 | enabled iff the country is non-empty |
| ApiHooks.StatesFetchMatchesKey | src/hooks/useApi.ts:50-51 | the states request asks for the country in its key |
| ApiHooks.FormsRetryIgnoresStatus | src/hooks/useApi.ts:20 | `retry: 3` retries a 404 three times where the default gives up |
| QueryProvider.Retry | src/providers/QueryProvider.tsx:11-18 | false for a 4xx status; otherwise true iff fewer than three failures |
| QueryProvider.NoResponseIsRetryable | src/providers/QueryProvider.tsx:13-17 | a failure without a response is retried like a server error |
| QueryProvider.Pow2Monotone | src/providers/QueryProvider.tsx:19 | powers of two grow with the exponent |
| QueryProvider.RetryDelay | src/providers/QueryProvider.tsx:19 | `min(1000 * 2^a, 30000)`: never above 30000 |
| QueryProvider.RetryDelayDoubles | src/providers/QueryProvider.tsx:19 | 1000 at the first attempt, doubling under the cap |
| QueryProvider.RetryDelayCapped | src/providers/QueryProvider.tsx:19 | exactly 30000 from attempt index 5 on |
| QueryProvider.RetryDelayMonotone | src/providers/QueryProvider.tsx:19 | never decreasing in the attempt index |
| QueryProvider.ShouldRetry | src/providers/QueryProvider.tsx:11-18 | no policy retries past its bound |
| QueryProvider.Waits | src/providers/QueryProvider.tsx:11-19 | a failing request is retried at most its policy's bound |
| QueryProvider.QueryGivesUpAfterThreeRetries | src/providers/QueryProvider.tsx:11-19 | a request failing without a 4xx is retried three times after 1, 2 and 4 seconds |
| QueryProvider.ClientErrorIsNotRetried | src/providers/QueryProvider.tsx:13-15 | a 4xx is never retried |
| QueryProvider.MutationRetriesOnce | src/providers/QueryProvider.tsx:23-27 | a failing mutation is retried once, after one second |
| QueryProvider.WaitsBounded | src/providers/QueryProvider.tsx:19 | no back-off wait exceeds 30 seconds |

## Left out

- `src/services/api.ts` is not part of this model. Its axios calls, interceptors, auth token and 401 redirect are I/O. Whether a request succeeds is a parameter.
- The query library's caching, stale and cache times, refetching and scheduling are left out. Only the keys, retry and delay functions and `enabled` guards are modelled, along with the option values.
- Timers are not modelled as time. These become explicit events:
  - the 2-second auto-save debounce (`AutoSaveTimerFired`);
  - the 5-second notification timeout (`NotificationTimerFired`).
  The mock backend's delays are dropped.
- Regular expressions: `pattern` is tested by an injected predicate, because JavaScript regex semantics are out of scope. No fixture field has a pattern. An invalid pattern throws in the source (`new RegExp` raises a SyntaxError, so handleSubmit stops: the errors are not set and the draft is not removed); the injected predicate is total, so the model has no such failure.
- Text.ParseNumber: accepts an optional sign and decimal digits, and returns NaN (None) for everything else. This is weaker than `Number()`, which also accepts surrounding white space, fractions, exponents, hexadecimal and "Infinity". Those are floating-point inputs.
- Text.Lower: maps only ASCII letters, because Unicode case mapping is out of scope.
- Text.UpperChar and ApplicationsList.StatusBadgeText: upper-case only ASCII letters and keep the length. JavaScript's `toUpperCase` maps all of Unicode and can lengthen a string ('ß' becomes "SS"). Every stored status is ASCII, so no shown badge differs.
- Types.Validation: the `min` and `max` bounds and `Num` values are integers; the source's `number` also allows fractions. Every fixture bound and seed number is an integer.
- Text.Trim: cuts only what Text.IsSpace recognises (ASCII white space, NBSP and BOM), because the Unicode white space table is out of scope.
- Strings are sequences of characters, not UTF-16 code units.
- Locale formatting is injected as parameters:
  - `toLocaleDateString` for Submitted Date;
  - `toLocaleString` for Property Value.
  `Date.now()` and the ISO timestamp are also parameters.
- ApplicationsList.SortKey: a row lacking the sort column compares as the empty string. In the source, `undefined` compares neither less nor greater than anything, which makes the comparator inconsistent. Every row from getSubmissions carries every column, so this case does not arise there.
- ApplicationsList.InOrder: compares keys as strings by character code, because rows hold display text. The loose `<` on mixed types is out of scope.
- Membership tests are modelled as own keys only. Lookups such as `statesByCountry[country]` and `formData[dependsOn]` follow the object's own keys. Inherited prototype members, such as a country named "constructor", are ignored.
- DynamicForm.CurrentItems: a checkbox field holding a non-list value (possible only through a draft) is read as no selection. The source would call `filter` on it or spread it.
- Dynamic select options, the states loading flag, option lists and input markup are out of scope. `renderField` is reduced to which fields appear.
- `src/components/FormSelector.tsx` is presentation only and is not modelled.
- The applications table's error and loading screens, result count text and "Showing x to y" text are not modelled. Neither are markup, icons and styles anywhere.
- FormSession.Session: `selectedCountry` holds the raw value. In the source it is typed as a string but receives whatever the country input sends.
- JSON serialisation of drafts is a stored value that either parses to form data or is malformed. A draft round-trips exactly, which JSON does for the strings, integers and lists held here.
- Schemas with duplicate field ids are allowed, and the error map then keeps the last message. The value lemmas require distinct ids, as the fixtures have.
- The page and limit sent with the submissions query are only part of its key. The mock backend ignores them, and paging is client-side.
