# TaskGo book catalogue: a Dafny model of its core

TaskGo is a small book catalogue. A React client keeps the books in one store,
loads and edits them through a hook that calls a REST service, and shows them
on a dashboard with a search box, a filter panel and an add/edit form. A Go
backend serves the books and has a URL-cleaning endpoint, and it reads its
database configuration from the environment.

This project models the parts of that system that decide behaviour:

- **Validation** (`validation.dfy`): the client's book validator. It has one
  rule per field, an error record with one key per failing field, and
  `hasValidationErrors`. `ValidateBook` is the source's sequence of
  conditional assignments. `BookErrors` states the same result field by field.
- **BooksContext** (`books_context.dfy`): the store state, the seven actions
  and the reducer, as a pure function (`Reduce`, `Run`). The provider's
  `useReducer` cell is a class, `BooksStore`, whose `Dispatch` applies the
  reducer in place and logs every action. `UseBooks` is the guard that throws
  outside a provider.
- **BooksApi / BooksApiLegacy** (`books_api.dfy`, `books_api_legacy.dfy`): the
  two generations of the `useBooksAPI` hook. Each operation is a method that
  dispatches into the store. A specification function gives the actions each
  operation dispatches, and lemmas state the resulting store state for success
  and for failure. The current hook clears `loading` in a `finally`; the older
  hook has no `finally` (see Findings).
- **SearchAndFilter** (`search_and_filter.dfy`): the panel's state as a class.
  Filter updates are merged with spread semantics, and the year inputs go
  through `parseInt`. The module also has the "active filters" test and the
  results counter.
- **Dashboard** (`dashboard.dfy`): the filter effect as a method proved equal
  to `FilteredView`, the modal state machine as a class, the modal titles, and
  the early-return screens (spinner, error, list).
- **BookForm / BookFormLegacy** (`book_form.dfy`, `book_form_legacy.dfy`): the
  two add/edit forms. Each has its inputs, hydration from a book, the change,
  blur and submit handlers, and the payload sent to `onSubmit`. The current
  form also derives its type options from the stored books.
- **UrlHandler** (`url_handler.dfy`): `cleanCanonical` and `cleanRedirection`,
  which edit a parsed URL in place, and the `ProcessURL` endpoint with its
  binding rules and error responses.
- **DbConfig** (`db_config.dfy`): `normalisedDSN`, `parseLogLevel` and the
  auto-migrate switch of `ConnectDB`.

Shared helpers:

- `Wrappers`: `Option`.
- `Remote`: the outcome of a remote call, a value or a thrown JavaScript
  value.
- `JsText`: JavaScript `trim`, Go `strings.TrimSpace`, lower-casing,
  `includes`, `parseInt` and number-to-text.
- `Seqs`: `filter`, subsequences, and de-duplication in first-occurrence
  order.

Inputs from outside the modelled code are parameters:

- the outcome of every service call;
- the current year;
- `url.Parse`;
- the older client's validator;
- the values of environment variables.

## Model

| member | source | states |
|---|---|---|
| Validation.ValidationErrors.Keys | Frontend/src/utils/validation.ts:62-64 | `Object.keys` of the error record: exactly the fields whose rule reported a message, and only the six validated fields |
| Validation.ValidationErrors.ToMap | Frontend/src/utils/validation.ts:7-60 | the record as the form's error map: a key is present exactly when its rule reported, holding that message's text |
| Validation.MessageTextNonEmpty | Frontend/src/utils/validation.ts:10-58 | every message the validator writes is non-empty text |
| Validation.RemoveSeparators | Frontend/src/utils/validation.ts:39 | `replace(/[-\s]/g, '')`: the result is no longer than the input and contains no hyphen or whitespace |
| Validation.RemoveSeparatorsAppend | Frontend/src/utils/validation.ts:39 | removing separators distributes over concatenation |
| Validation.ValidateBook | Frontend/src/utils/validation.ts:7-60 | the validator's result is, key by key, each field's own rule (`BookErrors`) |
| Validation.BookErrors | Frontend/src/utils/validation.ts:7-60 | the validator's result as a definition: each key holds its own field's rule; `ValidateBook` is proved equal to it, and `ValidationIsLocal`, `HasErrorsIffSomeMessage` and `ValidSampleHasNoErrors` state its properties |
| Validation.CheckTitle | Frontend/src/utils/validation.ts:10-15 | the title rule as a definition: "required" when blank after trimming, "too short" under two UTF-16 code units (`length`); its tiers are proved by `TitleAndAuthorRules` |
| Validation.CheckAuthor | Frontend/src/utils/validation.ts:17-22 | the author rule as a definition, with the title's tiers and its own messages; proved by `TitleAndAuthorRules` |
| Validation.CheckYear | Frontend/src/utils/validation.ts:24-34 | the year rule as a definition: `''` is required; text is read by `parseInt(_, 10)`; NaN or a year outside [1000, currentYear + 1] is out of range; proved by `YearBoundaries` |
| Validation.CheckIsbn | Frontend/src/utils/validation.ts:36-43 | the ISBN rule as a definition: only a present, non-blank value is checked, with separators removed, against the ISBN-10/13 pattern; proved by `CleanIsbnChecked` and `SeparatorIgnored` |
| Validation.CheckPages | Frontend/src/utils/validation.ts:45-51 | the pages rule as a definition: a value that is present and not `''` must read as a number of at least 1; proved by `PagesBoundaries` |
| Validation.CheckType | Frontend/src/utils/validation.ts:53-58 | the type rule as a definition: absent or blank is required, under two UTF-16 code units once trimmed is too short; proved by `TypeRuleTiers` |
| Validation.TitleRule | Frontend/src/utils/validation.ts:10-15 | the title block writes the rule's message, or nothing; the length test counts UTF-16 code units, as `.trim().length` does |
| Validation.AuthorRule | Frontend/src/utils/validation.ts:17-22 | the author block writes the rule's message, or nothing; the length test counts UTF-16 code units, as `.trim().length` does |
| Validation.YearRule | Frontend/src/utils/validation.ts:24-34 | the year block writes the rule's message, or nothing |
| Validation.IsbnRule | Frontend/src/utils/validation.ts:36-43 | the ISBN block writes the rule's message, or nothing |
| Validation.PagesRule | Frontend/src/utils/validation.ts:45-51 | the pages block writes the rule's message, or nothing |
| Validation.TypeRule | Frontend/src/utils/validation.ts:53-58 | the type block writes the rule's message, or nothing; the length test counts UTF-16 code units, as `.trim().length` does |
| Validation.HasValidationErrors | Frontend/src/utils/validation.ts:62-64 | true exactly when the error object has some key, whatever its message |
| Validation.HasErrorsIffSomeMessage | Frontend/src/utils/validation.ts:62-64 | on the validator's own result there are errors exactly when some rule reported one |
| Validation.ValidationIsLocal | Frontend/src/utils/validation.ts:7-60 | each key's message depends only on its own field (and the current year) |
| Validation.TitleAndAuthorRules | Frontend/src/utils/validation.ts:10-22 | title and author: "required" when blank after trimming; "too short" exactly when the trimmed text is one character of the Basic Multilingual Plane (one code unit); accepted otherwise, so one character above U+FFFF passes |
| Validation.TypeRuleTiers | Frontend/src/utils/validation.ts:53-58 | type: accepted exactly when present, not blank once trimmed, and not a single code unit; absent counts as required; a present type follows the title's tiers |
| Validation.AstralCharacterLongEnough | Frontend/src/utils/validation.ts:13-56 | a lone book emoji (U+1F4DA, two code units) passes the title, author and type rules, while a lone letter is too short |
| Validation.YearBoundaries | Frontend/src/utils/validation.ts:24-34 | 1000 and currentYear+1 are accepted; 999, currentYear+2 and non-numbers are out of range; `''` is required |
| Validation.PagesBoundaries | Frontend/src/utils/validation.ts:45-51 | 0 pages rejected, 1 accepted, absent or `''` accepted |
| Validation.RemoveSeparatorsUntouched | Frontend/src/utils/validation.ts:39 | a string without separators is its own cleaned form |
| Validation.CleanIsbnChecked | Frontend/src/utils/validation.ts:36-43 | a separator-free ISBN passes exactly when it is empty or matches the ISBN-10/13 pattern |
| Validation.SeparatorIgnored | Frontend/src/utils/validation.ts:36-43 | inserting a hyphen or whitespace anywhere into a non-blank ISBN does not change the verdict |
| Validation.SampleIsbnMatches | Frontend/src/utils/validation.ts:38 | `9780441172719` matches the pattern |
| Validation.IsbnThirteenDigitsPasses | Frontend/src/utils/validation.ts:36-43 | a plain ISBN-13 is accepted |
| Validation.IsbnTooShortFails | Frontend/src/utils/validation.ts:36-43 | `123` is reported as an invalid ISBN |
| Validation.EmptyMessageStillCounts | Frontend/src/utils/validation.ts:62-64 | a key with an empty message still counts as an error; `{}` does not |
| Validation.ValidSampleHasNoErrors | Frontend/src/utils/validation.ts:7-64 | a complete valid book yields `{}` and no errors |
| BooksContext.ReplaceById | Frontend/src/context/BooksContext.tsx:37-43 | same length; each position holds the update exactly when its id matches, else the old book |
| BooksContext.Reduce | Frontend/src/context/BooksContext.tsx:27-54 | `booksReducer` as a definition, one case per action type and the state unchanged by default; each case's effect is stated by the `SetLoading…`, `AddBook…`, `UpdateBook…`, `DeleteBook…` lemmas and `ActionFootprints` |
| BooksContext.Run | Frontend/src/context/BooksContext.tsx:27-54 | the reducer folded over a sequence of dispatched actions, in order; `RunAppend` proves that dispatching in two parts equals dispatching at once |
| BooksContext.RemoveById | Frontend/src/context/BooksContext.tsx:44-48 | no remaining book has the deleted id |
| BooksContext.RunAppend | Frontend/src/context/BooksContext.tsx:27-54 | dispatching two action sequences in turn equals dispatching their concatenation |
| BooksContext.SetLoadingChangesOnlyLoading | Frontend/src/context/BooksContext.tsx:29-30 | `SET_LOADING` sets the flag and nothing else |
| BooksContext.SetErrorStopsLoading | Frontend/src/context/BooksContext.tsx:31-32 | `SET_ERROR` records the message and stops loading; books and selection kept |
| BooksContext.SetBooksReplacesList | Frontend/src/context/BooksContext.tsx:33-34 | `SET_BOOKS` replaces the list, clears the error, stops loading, keeps the selection |
| BooksContext.SetSelectedChangesOnlySelection | Frontend/src/context/BooksContext.tsx:49-50 | `SET_SELECTED_BOOK` changes only the selection |
| BooksContext.UnrecognisedActionIgnored | Frontend/src/context/BooksContext.tsx:51-52 | an unknown action leaves the state unchanged |
| BooksContext.ActionFootprints | Frontend/src/context/BooksContext.tsx:27-54 | only list actions change the list, only `SET_SELECTED_BOOK` the selection, and list actions leave loading and error alone |
| BooksContext.AddBookAppends | Frontend/src/context/BooksContext.tsx:35-36 | `ADD_BOOK` appends at the end and keeps every earlier book, even for a duplicate id |
| BooksContext.UpdateBookReplacesMatches | Frontend/src/context/BooksContext.tsx:37-43 | `UPDATE_BOOK` keeps length and ids and replaces exactly the books with the matching id |
| BooksContext.UpdateAbsentIsNoop | Frontend/src/context/BooksContext.tsx:37-43 | an update whose id is not in the list changes nothing |
| BooksContext.UpdateIdempotent | Frontend/src/context/BooksContext.tsx:37-43 | the same update twice equals once |
| BooksContext.DeleteBookRemovesId | Frontend/src/context/BooksContext.tsx:44-48 | `DELETE_BOOK` keeps exactly the books with another id, in order (a subsequence), each as many times as the list held it |
| BooksContext.DeleteIdempotent | Frontend/src/context/BooksContext.tsx:44-48 | deleting an id twice equals once |
| BooksContext.AddThenDeleteRestores | Frontend/src/context/BooksContext.tsx:35-48 | adding a book with a new id, then deleting that id, restores the state |
| BooksContext.BooksStore.constructor | Frontend/src/context/BooksContext.tsx:20-25 | the provider starts from the initial state |
| BooksContext.BooksStore.Dispatch | Frontend/src/context/BooksContext.tsx:62-63 | dispatch replaces the state by the reducer's result and keeps the state equal to the initial state run through every dispatched action |
| BooksContext.UseBooks | Frontend/src/context/BooksContext.tsx:72-78 | the context when inside a provider, otherwise the fixed `Error` is thrown |
| BooksApi.ErrorPayload | Frontend/src/hooks/useBooksAPI.ts:19-23 | `err?.error ?? fallback`: the thrown value's `error` property when present, else the fallback |
| BooksApi.DispatchBracketed | Frontend/src/hooks/useBooksAPI.ts:9-10 | dispatches loading-on, the settling action, loading-off, in that order |
| BooksApi.Bracketed | Frontend/src/hooks/useBooksAPI.ts:9-10 | loading on, the settling action, loading off, in that order; `BracketShape` and `RunBracketed` state its shape and effect |
| BooksApi.FetchBooksActions | Frontend/src/hooks/useBooksAPI.ts:14-27 | the actions `fetchBooks` dispatches: the list on success, the `error` payload or the fixed fetch message on failure; its effect is proved by `FetchBooksEffect` |
| BooksApi.FetchBookByIdActions | Frontend/src/hooks/useBooksAPI.ts:29-47 | the actions `fetchBookById` dispatches: the selection on success, the error otherwise; proved by `FetchBookByIdEffect` |
| BooksApi.CreateBookActions | Frontend/src/hooks/useBooksAPI.ts:51-69 | the actions `createBook` dispatches: the returned book appended on success, the error otherwise; proved by `CreateBookEffect` |
| BooksApi.UpdateBookActions | Frontend/src/hooks/useBooksAPI.ts:73-91 | the actions `updateBook` dispatches: the returned book replacing its id on success, the error otherwise; proved by `UpdateBookEffect` |
| BooksApi.DeleteBookActions | Frontend/src/hooks/useBooksAPI.ts:95-112 | the actions `deleteBook` dispatches: its own id removed on success, the error otherwise; proved by `DeleteBookEffect` |
| BooksApi.FetchBooks | Frontend/src/hooks/useBooksAPI.ts:14-27 | dispatches the bracketed list-or-error actions; a failure is swallowed |
| BooksApi.FetchBookById | Frontend/src/hooks/useBooksAPI.ts:29-47 | dispatches the bracketed selection-or-error actions; returns the book or rethrows |
| BooksApi.CreateBook | Frontend/src/hooks/useBooksAPI.ts:51-69 | dispatches the bracketed append-or-error actions; returns the book or rethrows |
| BooksApi.UpdateBook | Frontend/src/hooks/useBooksAPI.ts:73-91 | dispatches the bracketed replace-or-error actions; returns the book or rethrows |
| BooksApi.DeleteBook | Frontend/src/hooks/useBooksAPI.ts:95-112 | dispatches the bracketed remove-or-error actions; rethrows on failure |
| BooksApi.BracketShape | Frontend/src/hooks/useBooksAPI.ts:14-112 | every operation starts with loading-on and ends with loading-off; an error is dispatched only on failure, and then no success action is |
| BooksApi.RunBracketed | Frontend/src/hooks/useBooksAPI.ts:14-112 | the bracket's effect is the settling action on a loading state, then loading off |
| BooksApi.LoadingClearedAfterEveryOperation | Frontend/src/hooks/useBooksAPI.ts:24-26 | after any operation, whatever its outcome, the store is not loading |
| BooksApi.FetchBooksEffect | Frontend/src/hooks/useBooksAPI.ts:14-27 | success replaces the list and clears the error; failure records the message and keeps the list |
| BooksApi.FetchBookByIdEffect | Frontend/src/hooks/useBooksAPI.ts:29-47 | success selects the book; failure records the message; the list is kept either way |
| BooksApi.CreateBookEffect | Frontend/src/hooks/useBooksAPI.ts:51-69 | success appends the new book; failure records the message and keeps the list |
| BooksApi.UpdateBookEffect | Frontend/src/hooks/useBooksAPI.ts:73-91 | success replaces the books with the returned id; failure records the message and keeps the list |
| BooksApi.DeleteBookEffect | Frontend/src/hooks/useBooksAPI.ts:95-112 | the id is removed only after the service succeeded; failure records the message and keeps the list |
| BooksApi.PlainErrorRecordsFallback | Frontend/src/hooks/useBooksAPI.ts:22 | a plain `Error` has no `error` property, so the fixed message is recorded |
| BooksApiLegacy.LegacyPayload | project/src/hooks/useBooksAPI.ts:15 | an `Error`'s own message, else the fallback |
| BooksApiLegacy.DispatchStarted | project/src/hooks/useBooksAPI.ts:10-16 | dispatches loading-on and then the settling action, nothing after |
| BooksApiLegacy.Started | project/src/hooks/useBooksAPI.ts:10-16 | loading on, then the settling action, and no loading-off; `NeverDispatchesLoadingOff` and `RunStarted` state its shape and effect |
| BooksApiLegacy.FetchBooksActions | project/src/hooks/useBooksAPI.ts:9-17 | the actions the older `fetchBooks` dispatches: the list on success, the error's own message or the fallback on failure; proved by `FetchBooksEffect` |
| BooksApiLegacy.FetchBookByIdActions | project/src/hooks/useBooksAPI.ts:19-29 | the actions the older `fetchBookById` dispatches; `OtherSuccessesLeaveLoading` proves success leaves loading on |
| BooksApiLegacy.CreateBookActions | project/src/hooks/useBooksAPI.ts:31-41 | the actions the older `createBook` dispatches; proved by `CreateBookEffect` |
| BooksApiLegacy.UpdateBookActions | project/src/hooks/useBooksAPI.ts:43-53 | the actions the older `updateBook` dispatches; `OtherSuccessesLeaveLoading` proves success leaves loading on |
| BooksApiLegacy.DeleteBookActions | project/src/hooks/useBooksAPI.ts:55-64 | the actions the older `deleteBook` dispatches; `OtherSuccessesLeaveLoading` proves success leaves loading on |
| BooksApiLegacy.FetchBooks | project/src/hooks/useBooksAPI.ts:9-17 | dispatches the started list-or-error actions; a failure is swallowed |
| BooksApiLegacy.FetchBookById | project/src/hooks/useBooksAPI.ts:19-29 | dispatches the started selection-or-error actions; returns or rethrows |
| BooksApiLegacy.CreateBook | project/src/hooks/useBooksAPI.ts:31-41 | dispatches the started append-or-error actions; returns or rethrows |
| BooksApiLegacy.UpdateBook | project/src/hooks/useBooksAPI.ts:43-53 | dispatches the started replace-or-error actions; returns or rethrows |
| BooksApiLegacy.DeleteBook | project/src/hooks/useBooksAPI.ts:55-64 | dispatches the started remove-or-error actions; rethrows on failure |
| BooksApiLegacy.NeverDispatchesLoadingOff | project/src/hooks/useBooksAPI.ts:9-64 | no operation ever dispatches loading-off itself |
| BooksApiLegacy.RunStarted | project/src/hooks/useBooksAPI.ts:9-64 | the effect is the settling action applied to a loading state |
| BooksApiLegacy.LoadingClearedOnlyBySettlingCase | project/src/hooks/useBooksAPI.ts:9-64 | loading ends exactly when the settling action is `SET_BOOKS` or `SET_ERROR` |
| BooksApiLegacy.FetchBooksEffect | project/src/hooks/useBooksAPI.ts:9-17 | either way the list or the error is set and loading ends |
| BooksApiLegacy.CreateBookEffect | project/src/hooks/useBooksAPI.ts:31-41 | success appends and leaves loading on; failure records the message and ends loading |
| BooksApiLegacy.OtherSuccessesLeaveLoading | project/src/hooks/useBooksAPI.ts:19-64 | successful fetch-by-id, update and delete leave loading on |
| BooksApiLegacy.VariantsCompared | project/src/hooks/useBooksAPI.ts:31-41 | on the same creation the newer hook clears loading and the older does not; on a plain `Error` they record different messages |
| SearchAndFilter.Merge | Frontend/src/components/books/SearchAndFilter.tsx:40-44 | `{ ...filters, ...update }`: each key the update has overwrites, the others are kept |
| SearchAndFilter.MergeComposes | Frontend/src/components/books/SearchAndFilter.tsx:40-44 | merging two updates in turn is merging their combination; the same update twice equals once |
| SearchAndFilter.EmptyUpdateKeeps | Frontend/src/components/books/SearchAndFilter.tsx:40-44 | an update with no keys keeps the criteria |
| SearchAndFilter.GenreUpdate | Frontend/src/components/books/SearchAndFilter.tsx:105 | "All Genres" stores `undefined`; any other choice stores that genre |
| SearchAndFilter.YearInput | Frontend/src/components/books/SearchAndFilter.tsx:125 | a blank year input is `undefined`, anything else is `parseInt` of it |
| SearchAndFilter.MinYearUpdate | Frontend/src/components/books/SearchAndFilter.tsx:122-127 | the "From Year" update: the lower bound from the input, the upper bound kept; proved by `YearInputsKeepTheRest` |
| SearchAndFilter.MaxYearUpdate | Frontend/src/components/books/SearchAndFilter.tsx:138-143 | the "To Year" update: the upper bound from the input, the lower bound kept; proved by `YearInputsKeepTheRest` |
| SearchAndFilter.YearInputsKeepTheRest | Frontend/src/components/books/SearchAndFilter.tsx:122-143 | a year input sets its own bound and keeps the genre and the other bound |
| SearchAndFilter.YearInputRoundTrip | Frontend/src/components/books/SearchAndFilter.tsx:121-125 | typing back the numeral an input shows yields the same bound |
| SearchAndFilter.FalsyCriteriaInactive | Frontend/src/components/books/SearchAndFilter.tsx:53 | an empty genre and bounds of 0 or NaN do not count as active filters |
| SearchAndFilter.HasActiveFilters | Frontend/src/components/books/SearchAndFilter.tsx:53 | `hasActiveFilters`: a non-empty query, a non-empty genre, or a truthy year bound; `FalsyCriteriaInactive` and `Panel.ClearFilters` state when it is false |
| SearchAndFilter.CounterSaysAllIffNothingHidden | Frontend/src/components/books/SearchAndFilter.tsx:154-157 | the counter reads "Showing all" exactly when the counts are equal |
| SearchAndFilter.CounterText | Frontend/src/components/books/SearchAndFilter.tsx:154-157 | the results counter; `CounterSaysAllIffNothingHidden`, `CounterAllShowsTotal` and `CounterPartShowsBoth` state its wording and the numbers it shows |
| SearchAndFilter.CounterAllShowsTotal | Frontend/src/components/books/SearchAndFilter.tsx:154-157 | when nothing is hidden the counter shows the total, which reads back as that number |
| SearchAndFilter.CounterPartShowsBoth | Frontend/src/components/books/SearchAndFilter.tsx:154-157 | when some books are hidden the counter shows the listed count, then " of ", then the total, and both read back as those numbers |
| SearchAndFilter.Panel.constructor | Frontend/src/components/books/SearchAndFilter.tsx:25-27 | empty query, no criteria, filters hidden |
| SearchAndFilter.Panel.HandleSearchChange | Frontend/src/components/books/SearchAndFilter.tsx:34-38 | stores the query and forwards exactly it |
| SearchAndFilter.Panel.HandleFilterChange | Frontend/src/components/books/SearchAndFilter.tsx:40-44 | stores the merged criteria and forwards them |
| SearchAndFilter.Panel.SelectGenre | Frontend/src/components/books/SearchAndFilter.tsx:105 | sets the genre (`undefined` for `''`) and keeps the year range |
| SearchAndFilter.Panel.EnterMinYear | Frontend/src/components/books/SearchAndFilter.tsx:122-127 | merges the lower-bound update |
| SearchAndFilter.Panel.EnterMaxYear | Frontend/src/components/books/SearchAndFilter.tsx:138-143 | merges the upper-bound update |
| SearchAndFilter.Panel.ClearFilters | Frontend/src/components/books/SearchAndFilter.tsx:46-51 | empties query and criteria, tells the parent `''` and `{}`, and leaves nothing active |
| SearchAndFilter.Panel.ToggleFilters | Frontend/src/components/books/SearchAndFilter.tsx:70 | flips the panel's visibility only |
| Dashboard.FilteredView | Frontend/src/pages/Dashboard.tsx:33-59 | the listed books are no more than the store's and each passes every active criterion |
| Dashboard.Admits | Frontend/src/pages/Dashboard.tsx:37-56 | a book passes when it matches the lower-cased query in title or author (only if the query is non-empty), has the chosen genre (only if set), and lies within each truthy year bound; `YearBoundsInclusive`, `SpaceQueryStillFilters` and `InactiveCriteriaListEverything` state its cases |
| Dashboard.ApplyFilters | Frontend/src/pages/Dashboard.tsx:33-59 | the four successive filters give exactly `FilteredView` |
| Dashboard.FilteredViewIsSubsequence | Frontend/src/pages/Dashboard.tsx:33-59 | a book is listed exactly when it is stored and passes, as many times as the store holds it; store order is kept |
| Dashboard.FilteredViewIdempotent | Frontend/src/pages/Dashboard.tsx:33-59 | filtering the filtered list again changes nothing |
| Dashboard.InactiveCriteriaListEverything | Frontend/src/pages/Dashboard.tsx:33-59 | with no active criterion every book is listed |
| Dashboard.YearBoundsInclusive | Frontend/src/pages/Dashboard.tsx:51-56 | both year bounds are inclusive; bounds of 0 do not apply |
| Dashboard.SpaceQueryStillFilters | Frontend/src/pages/Dashboard.tsx:37-43 | a one-space query is applied and drops books with no space in title or author |
| Dashboard.ModalTitle | Frontend/src/pages/Dashboard.tsx:111-119 | the title is empty exactly when no modal is open |
| Dashboard.ModalTitlesDistinct | Frontend/src/pages/Dashboard.tsx:111-119 | different modals have different titles |
| Dashboard.SelectScreen | Frontend/src/pages/Dashboard.tsx:121-139 | spinner exactly when loading with no books; error exactly when not loading, no books and an error; list otherwise |
| Dashboard.NoSpinnerAfterOperation | Frontend/src/pages/Dashboard.tsx:121-129 | after any finished operation of the hook the spinner is gone |
| Dashboard.FailedFirstFetchShowsError | Frontend/src/pages/Dashboard.tsx:28-30 | a first fetch failing with a plain `Error` shows the fixed fetch message |
| Dashboard.Page.constructor | Frontend/src/pages/Dashboard.tsx:21-26 | no modal, empty query, no criteria, empty list |
| Dashboard.Page.RefreshFilteredBooks | Frontend/src/pages/Dashboard.tsx:33-59 | the shown list becomes the filtered view of the store's books |
| Dashboard.Page.HandleAddBook | Frontend/src/pages/Dashboard.tsx:61-64 | opens the add modal with no edited book |
| Dashboard.Page.HandleEditBook | Frontend/src/pages/Dashboard.tsx:66-69 | opens the edit modal on the book |
| Dashboard.Page.HandleViewBook | Frontend/src/pages/Dashboard.tsx:71-74 | opens the view modal, keeping the book in the edited slot |
| Dashboard.Page.HandleDeleteBook | Frontend/src/pages/Dashboard.tsx:76-79 | opens the delete modal on the book |
| Dashboard.Page.CloseModal | Frontend/src/pages/Dashboard.tsx:105-109 | no modal and no chosen books |
| Dashboard.Page.HandleFormSubmit | Frontend/src/pages/Dashboard.tsx:81-92 | creates in the add modal, updates the edited book in the edit modal, and sends no request in any other state; closes unless the call threw |
| Dashboard.Page.HandleConfirmDelete | Frontend/src/pages/Dashboard.tsx:94-103 | deletes the chosen book and closes only on success; nothing without a chosen book |
| Seqs.Filter | Frontend/src/pages/Dashboard.tsx:39-55 | `filter` keeps no more elements than it had, each satisfying the test |
| Seqs.FilterMembership | Frontend/src/pages/Dashboard.tsx:39-55 | an element is kept exactly when it was present and passes |
| Seqs.FilterMultiplicity | Frontend/src/pages/Dashboard.tsx:39-55 | every copy of an element that passes survives the filter, and no copy of one that fails |
| Seqs.FilterFilter | Frontend/src/pages/Dashboard.tsx:39-55 | two filters in turn equal one filter by the conjunction |
| Seqs.Distinct | Frontend/src/components/forms/BookForm.tsx:30-36 | `Array.from(new Set(...))`: the same elements, each once |
| Seqs.DistinctFirstOccurrenceOrder | Frontend/src/components/forms/BookForm.tsx:30-36 | the de-duplicated list is ordered by first occurrence |
| JsText.ToLowerIdempotent | Backend/handlers/url_handler.go:69 | lower-casing twice equals once |
| JsText.ToLower | Backend/database/db.go:76 | `toLowerCase` / `strings.ToLower`: the same length, each character folded on its own |
| JsText.Utf16Length | Frontend/src/utils/validation.ts:13 | a string's `length`: at least its number of characters and at most twice it |
| JsText.Utf16LengthCountsCharacters | Frontend/src/utils/validation.ts:13 | `length` equals the number of characters exactly when no character lies above U+FFFF |
| JsText.Utf16LengthBelowTwo | Frontend/src/utils/validation.ts:13 | `length < 2` exactly for the empty string and a single character of the Basic Multilingual Plane |
| JsText.Trim | Frontend/src/utils/validation.ts:11 | `String.prototype.trim` over JavaScript whitespace; `TrimByBlank` states when it gives `''` |
| JsText.TrimSpace | Backend/database/db.go:76 | `strings.TrimSpace` over Go whitespace; `BlankDsnIsPersistent` and `CustomDsnVerbatim` rely on its cases |
| JsText.Includes | Frontend/src/pages/Dashboard.tsx:40-41 | `String.prototype.includes`: the query occurs at some index of the text |
| JsText.ParseInt | Frontend/src/utils/validation.ts:29 | `parseInt`: leading whitespace, an optional sign, a `0x` prefix without a radix, the longest digit prefix, NaN without digits; `ParseIntOfIntToString`, `DecimalAgreesWithAuto` and `ParseIntBlank` state its properties |
| JsText.TrimByBlank | Frontend/src/utils/validation.ts:11 | trimming gives `''` exactly when every character is whitespace |
| JsText.ParseIntOfIntToString | Frontend/src/components/forms/BookForm.tsx:75-79 | `parseInt` of a number's text gives the number back |
| JsText.DecimalAgreesWithAuto | Frontend/src/utils/validation.ts:29 | where `parseInt(s, 10)` yields a non-zero number, `parseInt(s)` yields the same |
| BookForm.FormData.With | Frontend/src/components/forms/BookForm.tsx:91 | `{ ...prev, [name]: value }`: the named input changes and no other |
| BookForm.NonBlankTypes | Frontend/src/components/forms/BookForm.tsx:32-34 | only non-blank types are kept |
| BookForm.NonBlankTypesMembership | Frontend/src/components/forms/BookForm.tsx:32-34 | a type is kept exactly when some book carries it and it is not blank |
| BookForm.TypeOptions | Frontend/src/components/forms/BookForm.tsx:51 | the options are never empty |
| BookForm.TypeOptionsFromBooks | Frontend/src/components/forms/BookForm.tsx:30-51 | with some stored type the options are exactly the stored non-blank types, each once |
| BookForm.TypeOptionsFallback | Frontend/src/components/forms/BookForm.tsx:38-51 | with no stored type the ten fixed genres are offered |
| BookForm.OptionalText | Frontend/src/components/forms/BookForm.tsx:114-119 | `s \|\| undefined`: absent exactly for `''` |
| BookForm.HydratedFields | Frontend/src/components/forms/BookForm.tsx:70-84 | the hydration record: each value of the book as text, `''` when absent; `PayloadOfHydrated` proves submitting it unchanged sends the book back |
| BookForm.Payload | Frontend/src/components/forms/BookForm.tsx:110-120 | the submitted record: title and author untrimmed, year by `YearPayload`, pages by `PagesPayload`, empty optional texts absent; proved by `PayloadOfHydrated` |
| BookForm.YearPayload | Frontend/src/components/forms/BookForm.tsx:113 | `parseInt(s) \|\| 0`: always a number; the parsed number when it is truthy, 0 when `parseInt` gives NaN or 0 |
| BookForm.PagesPayload | Frontend/src/components/forms/BookForm.tsx:117 | absent exactly for `''`, else `parseInt` of the text |
| BookForm.PayloadOfHydrated | Frontend/src/components/forms/BookForm.tsx:70-120 | submitting an untouched hydrated form sends the book back (empty optional texts absent) |
| BookForm.YearPayloadZero | Frontend/src/components/forms/BookForm.tsx:113 | a year without digits and `"0"` are both sent as 0 |
| BookForm.Validate | Frontend/src/components/forms/BookForm.tsx:100-106 | the validator's verdict on the form, keyed by field |
| BookForm.ReportedMessagesNonEmpty | Frontend/src/components/forms/BookForm.tsx:101 | every reported message is non-empty, so a reported field is truthy |
| BookForm.BlurKeepsOtherErrors | Frontend/src/components/forms/BookForm.tsx:95-102 | a blur shows the reported message for its field, leaves other fields alone, and never clears an error |
| BookForm.BlurShowsReportedError | Frontend/src/components/forms/BookForm.tsx:95-102 | after a blur on a rejected field the field is painted as errored |
| BookForm.BlurErrors | Frontend/src/components/forms/BookForm.tsx:95-102 | a blur writes the validator's message for the field only when it is non-empty; `BlurKeepsOtherErrors` and `BlurShowsReportedError` state it |
| BookForm.Form.constructor | Frontend/src/components/forms/BookForm.tsx:54-67 | all inputs empty, no errors, nothing touched |
| BookForm.Form.Hydrate | Frontend/src/components/forms/BookForm.tsx:70-84 | a given book overwrites every input; otherwise nothing changes |
| BookForm.Form.HandleChange | Frontend/src/components/forms/BookForm.tsx:87-93 | writes the input and blanks its error, so the field no longer shows as errored |
| BookForm.Form.HandleBlur | Frontend/src/components/forms/BookForm.tsx:95-102 | marks the field touched and applies the blur rule to the validator's verdict |
| BookForm.Form.Accept | Frontend/src/components/forms/BookForm.tsx:123 | the parent receives the payload |
| BookForm.Form.HandleSubmit | Frontend/src/components/forms/BookForm.tsx:104-128 | errors become the validator's verdict; the payload is passed on exactly when there is no error key |
| BookForm.SubmitIffNoErrors | Frontend/src/components/forms/BookForm.tsx:106-109 | a submission goes through exactly when every rule passes |
| BookFormLegacy.FormData.With | project/src/components/forms/BookForm.tsx:47 | the named input changes and no other |
| BookFormLegacy.HydratedFields | project/src/components/forms/BookForm.tsx:29-43 | the older hydration record, with `genre` and `coverUrl`; proved by `PayloadOfHydrated` |
| BookFormLegacy.Payload | project/src/components/forms/BookForm.tsx:67-77 | the older submitted record, with `genre` and `coverUrl` and never `type` or `coverImageURL`; proved by `PayloadOfHydrated` |
| BookFormLegacy.GenresAreFallbackPlusOther | project/src/components/forms/BookForm.tsx:91-94 | eleven fixed genres ending in "Other": the current form's fallback plus "Other" |
| BookFormLegacy.PayloadOfHydrated | project/src/components/forms/BookForm.tsx:29-77 | an untouched hydrated form sends the book back with `genre` and `coverUrl`, never `type` or `coverImageURL` |
| BookFormLegacy.BlurWritesReportedError | project/src/components/forms/BookForm.tsx:53-58 | the field's error becomes exactly the reported message, `''` when none, so a blur can clear; others untouched |
| BookFormLegacy.BlurClearsWhereCurrentFormKeeps | project/src/components/forms/BookForm.tsx:57 | on a passing blur the older form clears the error, the current one keeps it |
| BookFormLegacy.BlurShowsIffReported | project/src/components/forms/BookForm.tsx:53-58 | after a blur the field is painted as errored exactly when the validator reports a message |
| BookFormLegacy.BlurErrors | project/src/components/forms/BookForm.tsx:53-58 | a blur writes the message for the field, `''` when none; `BlurWritesReportedError` and `BlurShowsIffReported` state it |
| BookFormLegacy.Form.constructor | project/src/components/forms/BookForm.tsx:14-27 | all inputs empty, no errors, nothing touched |
| BookFormLegacy.Form.Hydrate | project/src/components/forms/BookForm.tsx:29-43 | a given book overwrites every input |
| BookFormLegacy.Form.HandleChange | project/src/components/forms/BookForm.tsx:45-51 | writes the input and blanks its error |
| BookFormLegacy.Form.HandleBlur | project/src/components/forms/BookForm.tsx:53-58 | marks the field touched and writes the validator's verdict for it |
| BookFormLegacy.Form.HandleSubmit | project/src/components/forms/BookForm.tsx:60-84 | errors become the verdict; the payload is passed on exactly when there is no error key |
| UrlHandler.TrimSuffix | Backend/handlers/url_handler.go:63 | `strings.TrimSuffix`: the result plus the suffix is the input when it ended so, else the input |
| UrlHandler.Canonical | Backend/handlers/url_handler.go:60-64 | `cleanCanonical`: query and fragment emptied, one trailing slash trimmed; `CanonicalDropsOneSlash` and `CanonicalIdempotentIffNoDoubleSlash` state it |
| UrlHandler.Redirected | Backend/handlers/url_handler.go:66-70 | `cleanRedirection`: https, the fixed host, the path lower-cased; `RedirectedIdempotent` and `AllResult` state it |
| UrlHandler.Serialize | Backend/handlers/url_handler.go:57 | `URL.String` for the kept components: scheme, `//host`, path, `?query` and `#fragment`, each only when present |
| UrlHandler.Binds | Backend/handlers/url_handler.go:11-14 | the binding tags: both fields present and non-empty, the operation one of the three names; `UnknownOperationRefused` states it |
| UrlHandler.CanonicalDropsOneSlash | Backend/handlers/url_handler.go:60-64 | query and fragment emptied, scheme and host kept, at most one trailing slash removed |
| UrlHandler.CanonicalIdempotentIffNoDoubleSlash | Backend/handlers/url_handler.go:60-64 | cleaning twice equals once exactly when the path does not end in `//` |
| UrlHandler.CanonicalNotIdempotent | Backend/handlers/url_handler.go:63 | `/a//` becomes `/a/` and then `/a` |
| UrlHandler.RedirectedIdempotent | Backend/handlers/url_handler.go:66-70 | redirection cleaning is idempotent |
| UrlHandler.LowerTrimCommute | Backend/handlers/url_handler.go:63-69 | lower-casing and trimming one slash commute |
| UrlHandler.AllResult | Backend/handlers/url_handler.go:49-51 | `all` gives no query or fragment, https, the fixed host and the lower-cased path without its trailing slash; the cleaners commute |
| UrlHandler.Url.constructor | Backend/handlers/url_handler.go:38 | the parsed URL's components |
| UrlHandler.Url.CleanCanonical | Backend/handlers/url_handler.go:60-64 | the URL becomes its canonical form |
| UrlHandler.Url.CleanRedirection | Backend/handlers/url_handler.go:66-70 | the URL becomes its redirected form |
| UrlHandler.Apply | Backend/handlers/url_handler.go:44-55 | a cleaned URL exactly for the three known operations |
| UrlHandler.ProcessURL | Backend/handlers/url_handler.go:31-58 | 400 "Invalid input" when the body does not bind, 400 "Malformed URL" when parsing fails, otherwise 200 with the cleaned URL's text |
| UrlHandler.UnknownOperationRefused | Backend/handlers/url_handler.go:11-14 | an unknown operation or a missing field never binds |
| DbConfig.NormalisedDSN | Backend/database/db.go:75-86 | keys `''`, `file`, `prod` give `books.db`; `:memory:`, `mem`, `memory` the shared in-memory database; `tmp`, `tmpfile` the temporary file; any other value is returned as given |
| DbConfig.TargetIsNoAlias | Backend/database/db.go:75-86 | none of the three databases' names is itself an alias, so each normalises to itself |
| DbConfig.ToLowerKeepsSpace | Backend/database/db.go:76 | lower-casing keeps whitespace in place |
| DbConfig.BlankDsnIsPersistent | Backend/database/db.go:76-78 | an unset or all-whitespace value selects `books.db` |
| DbConfig.AliasesIgnoreCaseAndBlanks | Backend/database/db.go:76-82 | values with the same key get the same database; an alias selects one of the three |
| DbConfig.UnpaddedLongValueVerbatim | Backend/database/db.go:83-84 | a long unpadded value not starting with `:` is no alias and is used verbatim |
| DbConfig.CustomDsnVerbatim | Backend/database/db.go:83-84 | a custom path is returned neither trimmed nor lower-cased |
| DbConfig.NormalisedDSNIdempotent | Backend/database/db.go:75-86 | normalising a normalised name changes nothing |
| DbConfig.ParseLogLevel | Backend/database/db.go:88-99 | `Warn` exactly when the lower-cased text is none of the three other names |
| DbConfig.ParseLogLevelOfName | Backend/database/db.go:88-99 | every level is selected by its name in any case |
| DbConfig.PaddedLevelIsWarn | Backend/database/db.go:88-99 | a padded name and `''` both give `Warn` |
| DbConfig.AutoMigrate | Backend/database/db.go:45 | auto-migration is off exactly when the lower-cased value is `false` |
| DbConfig.AutoMigrateCases | Backend/database/db.go:45 | on when unset; off for `false` in any case; on for a padded `false` or `0` |

## Left out

- Service calls: `bookService` and its `fetch` requests are not part of this model. Each hook operation takes the outcome (a value, or the thrown value) as a parameter.
- React scheduling: state setters and effects run at once and in order. Batching, re-renders, effect dependencies and stale closures are not modelled.
- Rendering: the JSX markup, CSS classes and event objects are not modelled. Only the handlers and the conditions that choose what is rendered are.
- Clock and environment: the current year (`new Date().getFullYear()`) and the values of `os.Getenv` are parameters.
- `url.Parse` and `URL.String`: parsing is a parameter. `Serialize` covers only scheme, host, path, query and fragment. It leaves out user info, opaque URLs, `ForceQuery`, `RawPath` and percent-escaping. It also leaves out the `./` that `URL.String` puts before a relative path whose first segment contains a colon. It leaves out `OmitHost` too: `url.Parse` sets it for a URL such as `https:/x`, and `URL.String` then writes no `//`, while `Serialize` writes `https:///x`.
- Case mapping: `ToLower` (JavaScript `toLowerCase`, Go `strings.ToLower`) maps ASCII letters only. Unicode case mapping is not modelled.
- Numbers: JavaScript numbers are integers or NaN. Fractions, infinities and `parseInt`'s precision limit are not modelled.
- Older client's validator: `project/src/utils/validation.ts` is not part of this model. `BookFormLegacy.Form.HandleBlur` and `BookFormLegacy.Form.HandleSubmit` take the validator as a function parameter.
- Older client's store: its context is not part of this model. `BooksApiLegacy` runs against the reducer of `BooksContext`.
- Logging: `console.error` in the forms' `catch` and gorm's logger output are not modelled. `onSubmit` is recorded as receiving the payload; whether its promise rejects does not change the form's state.
- Go plumbing: gin's JSON binding is reduced to the `required` and `oneof` rules on two optional strings. `gorm.Open`, `AutoMigrate` and the `log.Fatalf` exits are not modelled.
- Out-of-scope fields: values of the wrong JSON type, and the form's `isLoading` and `onCancel` props, are not modelled.
- UrlHandler.ProcessURL: the `default` branch ("Invalid operation") is kept in the method. It cannot be reached, because binding has already refused every other operation.

## Findings

| source | as written | input that shows it | evidently intended | confidence | as-written member | corrected member |
|---|---|---|---|---|---|---|
| project/src/hooks/useBooksAPI.ts:19-64 | `fetchBookById`, `createBook`, `updateBook` and `deleteBook` set loading on and have no `finally`, so on success loading stays on (only `SET_BOOKS` and `SET_ERROR` clear it) | a successful `createBook` from a non-loading state leaves `loading == true` | loading is cleared after every operation, as the newer hook does with `finally { setLoading(false) }` | medium, not executed | BooksApiLegacy.OtherSuccessesLeaveLoading | BooksApi.LoadingClearedAfterEveryOperation |
