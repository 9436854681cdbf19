# Customer Workbench, modelled in Dafny

Customer Workbench is a small web application for customer-interaction records. It has a React frontend and a Spring backend. This project models the parts of it that follow fixed rules:

- **The list-query pipeline of the frontend.** The `useInteractions` hook keeps four fields: the current page of results (`data`), whether a request is outstanding (`loading`), the last error message (`error`) and the current query (`query`). A search merges a partial filter into the current query. Page changes and refreshes go through the same load. Before a request is sent, the query is turned into request parameters: undefined, null and empty values are dropped.
- **The interactions page.** It builds the query from the filter form, works out the Previous/Next targets and the page number shown, and picks the text of each row.
- **Small helpers.** The empty page envelope, `truncate`, `formatDateTime`, and the error-message mapper `getErrorMessage`.
- **The backend service.** This covers the ingestion guards for CSV and JSON, `create`, `search` with its specification built clause by clause, `findById`, and the field mapping between the transfer object and the entity.

Modules, one per source file, plus shared helper modules:
- `JsValues` models JavaScript's `undefined`, `null`, `??` and plain objects. Objects are maps, so object spread is map union, and a property that holds `undefined` still overrides an earlier value.
- `Pagination`, `Format`, `Api`, `InteractionsClient`, `Hooks` and `Pages` model the frontend.
- `Domain`, `Mappers` and `Services` model the backend.
- `Wrappers`, `InteractionTypes`, `InteractionRecord` and `Decimal` hold shared types and number printing.

Each stateful source object becomes a Dafny class:
- the hook is `Hooks.InteractionsHook`;
- the page's form state is `Pages.InteractionsPage`;
- the repository is `Services.InteractionLogRepository`, which holds a sequence of rows;
- the service is `Services.InteractionServiceImpl`.

The asynchronous `load` is split into `BeginLoad`, `CompleteSuccess` and `CompleteFailure`. `Load` runs these three in sequence through a transport, which is a function parameter. `Settle` is the functional description of a completed load, and the lemmas about it state what the hook promises.

Two behaviours of the code are easy to miss:
- A failed load can leave the empty string as its error. The error mapper returns a body's `error` field even when it is empty, because `??` skips only `null` and `undefined`. `Hooks.FailureMessageMayBeEmpty` shows this.
- The error mapper always prefers a body's `error` field to its `message` field when `error` is present, even when `error` is empty (`Api.EmptyErrorFieldIsReturned`).

## Model

| member | source | states |
|---|---|---|
| Pagination.EmptyPage | src/main/frontend/workbench/src/types/pagination.ts:12-21 | the empty page has no content, zero totals and page index 0, the given size, and is first, last and empty |
| Pagination.EmptyPageConsistent | src/main/frontend/workbench/src/types/pagination.ts:12-21 | an empty page of non-negative size is a consistent envelope (size bound, empty/first/last agree with content and number); the size defaults to 10 |
| Format.FormatDateTime | src/main/frontend/workbench/src/utils/format.ts:1-5 | a missing, null or empty value shows the dash; otherwise the locale rendering, or the dash for an invalid date |
| Format.Truncate | src/main/frontend/workbench/src/utils/format.ts:7-10 | blank text gives the dash; text within the limit is unchanged; longer text keeps its first `length` characters followed by the ellipsis (length+1 in all); the default limit is 80 |
| Format.SliceTo | src/main/frontend/workbench/src/utils/format.ts:9 | `slice(0, end)` keeps the first `end` characters, clamped to the text's length, and counts a negative end from the back |
| Format.TruncateIdempotent | src/main/frontend/workbench/src/utils/format.ts:7-10 | for a limit of at least 1, truncating an already truncated text changes nothing |
| Api.GetErrorMessage | src/main/frontend/workbench/src/services/api.ts:10-24 | the body's `error` wins, then the body's `message`, then the client error's message; a plain error gives its message; anything else the fixed fallback |
| Api.EmptyErrorFieldIsReturned | src/main/frontend/workbench/src/services/api.ts:12-16 | an empty `error` field is returned even when a `message` field is present |
| Api.GetErrorMessageSource | src/main/frontend/workbench/src/services/api.ts:10-24 | the mapper is total and returns one of the strings the error carries, or the fallback |
| InteractionsClient.Params | src/main/frontend/workbench/src/services/interactions.ts:6-16 | the parameters hold exactly the query's properties that are not undefined, null or empty, with their values unchanged |
| InteractionsClient.ToParams | src/main/frontend/workbench/src/services/interactions.ts:6-16 | the entry-by-entry loop builds exactly that parameter object |
| InteractionsClient.FetchInteractions | src/main/frontend/workbench/src/services/interactions.ts:18-22 | the request goes to the interactions path with exactly the query's parameters, and the answer is returned as is |
| InteractionsClient.BlankQuerySendsNothing | src/main/frontend/workbench/src/services/interactions.ts:6-16 | a query whose properties are all undefined, null or empty sends no parameter |
| InteractionsClient.ZeroIsSent | src/main/frontend/workbench/src/services/interactions.ts:10-12 | a falsy but non-empty value such as page 0 is sent unchanged |
| InteractionsClient.ParamsIdempotent | src/main/frontend/workbench/src/services/interactions.ts:6-16 | building parameters twice is building them once |
| Hooks.InitialQuery | src/main/frontend/workbench/src/hooks/useInteractions.ts:15-19 | the starting query has page 0 and size 10 unless the initial query overrides them, and every initial property wins |
| Hooks.Reconcile | src/main/frontend/workbench/src/hooks/useInteractions.ts:27 | after success the query is the requested one with page and size replaced by the server's page number and size |
| Hooks.Normalize | src/main/frontend/workbench/src/hooks/useInteractions.ts:40-46 | a search overlays every filter property on the current query, sets page to the filter's page or 0, and size to the filter's, else the query's, else 10 |
| Hooks.Settle | src/main/frontend/workbench/src/hooks/useInteractions.ts:25-31 | a settled load is never loading; success shows the server's page with no error and the reconciled query; failure keeps the page and query the load began with and reports the mapped message |
| Hooks.InteractionsHook.constructor | src/main/frontend/workbench/src/hooks/useInteractions.ts:11-19 | the hook starts with the empty page of size 10, not loading, no error, and the initial query |
| Hooks.InteractionsHook.BeginLoad | src/main/frontend/workbench/src/hooks/useInteractions.ts:22-23 | a load begins by setting loading and clearing the error; data and query are untouched |
| Hooks.InteractionsHook.CompleteSuccess | src/main/frontend/workbench/src/hooks/useInteractions.ts:25-31 | success sets data to the response, query to the reconciled query, and clears loading |
| Hooks.InteractionsHook.CompleteFailure | src/main/frontend/workbench/src/hooks/useInteractions.ts:28-31 | failure sets the mapped error message, keeps data and query, and clears loading |
| Hooks.InteractionsHook.Load | src/main/frontend/workbench/src/hooks/useInteractions.ts:21-33 | a load sends the query's parameters and settles the state with the transport's answer |
| Hooks.InteractionsHook.Search | src/main/frontend/workbench/src/hooks/useInteractions.ts:40-48 | a search loads the normalized query |
| Hooks.InteractionsHook.SetPage | src/main/frontend/workbench/src/hooks/useInteractions.ts:50 | a page change is a search with only the page |
| Hooks.InteractionsHook.Refresh | src/main/frontend/workbench/src/hooks/useInteractions.ts:52 | a refresh loads the current query unchanged |
| Hooks.SettledIsNotLoading | src/main/frontend/workbench/src/hooks/useInteractions.ts:30-32 | loading is false after every settled load, successful or not |
| Hooks.SuccessReplacesDataAndQuery | src/main/frontend/workbench/src/hooks/useInteractions.ts:25-27 | a successful load shows the response, clears the error and keeps the requested filters with the server's page and size |
| Hooks.FailureKeepsDataAndQuery | src/main/frontend/workbench/src/hooks/useInteractions.ts:28-29 | a failed load keeps the last page and query and reports the mapped message |
| Hooks.FailureMessageMayBeEmpty | src/main/frontend/workbench/src/hooks/useInteractions.ts:28-29 | a failed load can leave the empty string as its error |
| Hooks.SetPageKeepsFilters | src/main/frontend/workbench/src/hooks/useInteractions.ts:50 | a page change keeps every filter of the current query and sets only the page (and a missing size) |
| Hooks.EmptySearchResetsPage | src/main/frontend/workbench/src/hooks/useInteractions.ts:40-46 | a search with no filters resets the page to 0 and keeps a set size and every filter |
| Pages.BuildQuery | src/main/frontend/workbench/src/pages/InteractionsPage.tsx:31-37 | a submit query always holds the four filter properties and the page; a property is undefined exactly when its input is empty, otherwise the converted input |
| Pages.PreviousPage | src/main/frontend/workbench/src/pages/InteractionsPage.tsx:191 | Previous asks for one page back and never for a negative page |
| Pages.NextPage | src/main/frontend/workbench/src/pages/InteractionsPage.tsx:199 | Next asks for exactly the page after the current one |
| Pages.PreviousDisabled | src/main/frontend/workbench/src/pages/InteractionsPage.tsx:190 | Previous is disabled while loading; on a consistent page an enabled Previous has a page before it and steps back exactly one |
| Pages.NextDisabled | src/main/frontend/workbench/src/pages/InteractionsPage.tsx:198 | Next is disabled while loading; on a consistent page an enabled Next asks for a page index that exists |
| Pages.PagingButtons | src/main/frontend/workbench/src/pages/InteractionsPage.tsx:187-199 | both buttons are disabled while loading; on a consistent page (non-negative index, `last` exactly when no page follows) an enabled Previous steps back exactly one and an enabled Next asks for the next page, at most the last |
| Pages.CurrentPage | src/main/frontend/workbench/src/pages/InteractionsPage.tsx:59 | the page shown is the one-based page number, and 0 exactly when there are no pages |
| Pages.MessageOf | src/main/frontend/workbench/src/pages/InteractionsPage.tsx:165 | the message is the feedback, else the support response, else empty |
| Pages.MessageCell | src/main/frontend/workbench/src/pages/InteractionsPage.tsx:173 | an empty message shows the dash, a message of at most 120 characters is shown unchanged, a longer one shows its first 120 characters followed by the ellipsis |
| Pages.ResultsDescription | src/main/frontend/workbench/src/pages/InteractionsPage.tsx:146 | the description starts with "Showing " and ends with " record" when the total is 1 and " records" otherwise |
| Pages.InteractionsPage.constructor | src/main/frontend/workbench/src/pages/InteractionsPage.tsx:28-29 | the page starts with a blank form and a fresh hook with no initial query |
| Pages.WithField | src/main/frontend/workbench/src/pages/InteractionsPage.tsx:41 | the changed input holds the new value and every other input is unchanged |
| Pages.InteractionsPage.HandleChange | src/main/frontend/workbench/src/pages/InteractionsPage.tsx:39-42 | an input change replaces only that field of the form |
| Pages.InteractionsPage.HandleSubmit | src/main/frontend/workbench/src/pages/InteractionsPage.tsx:44-47 | a submit searches with the form's query at page 0 |
| Pages.InteractionsPage.HandleReset | src/main/frontend/workbench/src/pages/InteractionsPage.tsx:49-52 | a reset blanks the form and searches with only page 0 |
| Pages.InteractionsPage.HandlePageChange | src/main/frontend/workbench/src/pages/InteractionsPage.tsx:54-56 | Previous and Next change page through the hook |
| Pages.SubmitClearsEmptiedFilters | src/main/frontend/workbench/src/pages/InteractionsPage.tsx:31-47 | for each of the four filter inputs, a submit's requested query holds undefined exactly when the input is empty; an emptied filter is then not sent and, after a successful load, is undefined in the hook's query (a failed load keeps the old query); the page is 0 and productId carries over |
| Pages.ResetKeepsFilters | src/main/frontend/workbench/src/pages/InteractionsPage.tsx:49-52 | after a reset every filter of the hook's query is kept and the page is 0 |
| Mappers.ToEntity | src/main/java/com/s7fundops/customerworkbench/mappers/InteractionLogMapper.java:13-16 | the entity leaves version and both timestamps null, and mapping it back gives the transfer object unchanged |
| Mappers.ToDto | src/main/java/com/s7fundops/customerworkbench/mappers/InteractionLogMapper.java:11 | the transfer object copies the eight shared fields and drops the entity-only ones |
| Mappers.DtoRoundTrip | src/main/java/com/s7fundops/customerworkbench/mappers/InteractionLogMapper.java:11-16 | toDto(toEntity(d)) is d |
| Mappers.EntityRoundTrip | src/main/java/com/s7fundops/customerworkbench/mappers/InteractionLogMapper.java:11-16 | toEntity(toDto(e)) is e with version and timestamps cleared |
| Mappers.ToEntities | src/main/java/com/s7fundops/customerworkbench/services/InteractionServiceImpl.java:61-63 | the entities of a list of transfer objects, one per object, in order |
| Mappers.ToDtos | src/main/java/com/s7fundops/customerworkbench/services/InteractionServiceImpl.java:102-103 | the transfer objects of a list of entities, one per entity, in order |
| Services.RowViolation | src/main/java/com/s7fundops/customerworkbench/services/InteractionServiceImpl.java:140-147 | a row passes exactly when it is non-null with product, customer and type; a null row throws IllegalArgument; otherwise productId, customerId and interactionType are checked in that order, the first missing one throwing NullPointer with its own message |
| Services.Validated | src/main/java/com/s7fundops/customerworkbench/services/InteractionServiceImpl.java:139-148 | the row check fails only with the exception of one of the rows, and succeeds with one transfer object per row |
| Services.ValidatedIff | src/main/java/com/s7fundops/customerworkbench/services/InteractionServiceImpl.java:139-148 | the row check succeeds exactly when every row passes, and then yields the rows themselves |
| Services.ValidatedFirstViolation | src/main/java/com/s7fundops/customerworkbench/services/InteractionServiceImpl.java:139-148 | the row check throws the exception of the first failing row |
| Services.ValidateDtos | src/main/java/com/s7fundops/customerworkbench/services/InteractionServiceImpl.java:139-148 | the row loop reports no exception exactly when the check succeeds, otherwise the check's exception |
| Services.CsvRows | src/main/java/com/s7fundops/customerworkbench/services/InteractionServiceImpl.java:39-60 | a null or empty file, an unreadable file, a parser failure (with its reason appended), no rows and a failing row each give their own IllegalArgument or NullPointer message; only a parsed upload with rows can succeed, with one object per row |
| Services.CsvAcceptedIff | src/main/java/com/s7fundops/customerworkbench/services/InteractionServiceImpl.java:56-60 | parsed CSV rows are accepted exactly when there is at least one and each is non-null with its three required fields |
| Services.BuildSpecification | src/main/java/com/s7fundops/customerworkbench/services/InteractionServiceImpl.java:117-136 | the clauses built step by step hold of a row exactly when it matches the criteria |
| Services.FilterBy | src/main/java/com/s7fundops/customerworkbench/services/InteractionServiceImpl.java:102 | the rows found are stored rows that satisfy the specification, and every such row is found |
| Services.Select | src/main/java/com/s7fundops/customerworkbench/services/InteractionServiceImpl.java:117-135 | the selected rows are stored rows with the same customer, the given product and type, and a date within the inclusive bounds, and every such row is selected |
| Services.FilterBySelects | src/main/java/com/s7fundops/customerworkbench/services/InteractionServiceImpl.java:101-103 | finding by the built specification selects exactly the matching rows, in stored order |
| Services.NotFoundMessage | src/main/java/com/s7fundops/customerworkbench/services/InteractionServiceImpl.java:113 | the not-found message is the fixed text around the id written in decimal, which reads back as the id |
| Services.FirstWithId | src/main/java/com/s7fundops/customerworkbench/services/InteractionServiceImpl.java:112 | the row found has the id, and none is found exactly when no row has it |
| Services.InteractionLogRepository.constructor | src/main/java/com/s7fundops/customerworkbench/repositories/InteractionLogRepository.java:6 | a new repository holds no rows |
| Services.InteractionLogRepository.FindAll | src/main/java/com/s7fundops/customerworkbench/services/InteractionServiceImpl.java:102 | the repository's finder is `FilterBy` over the stored rows: exactly the rows that satisfy the specification, in stored order |
| Services.InteractionLogRepository.FindById | src/main/java/com/s7fundops/customerworkbench/services/InteractionServiceImpl.java:112 | the repository's lookup is `FirstWithId` over the stored rows: a stored row with the id, and nothing exactly when no row has it |
| Services.InteractionLogRepository.Save | src/main/java/com/s7fundops/customerworkbench/services/InteractionServiceImpl.java:90 | save appends one entity and returns it |
| Services.InteractionLogRepository.SaveAll | src/main/java/com/s7fundops/customerworkbench/services/InteractionServiceImpl.java:65 | saveAll appends the batch in order |
| Services.InteractionServiceImpl.constructor | src/main/java/com/s7fundops/customerworkbench/services/InteractionServiceImpl.java:32-35 | the service works on the repository it is given |
| Services.InteractionServiceImpl.IngestCsv | src/main/java/com/s7fundops/customerworkbench/services/InteractionServiceImpl.java:37-67 | a null, empty, unreadable or unparsable file, no rows, or a failing row throws and saves nothing; otherwise all rows are saved in one batch, in order, and their count returned |
| Services.InteractionServiceImpl.IngestJson | src/main/java/com/s7fundops/customerworkbench/services/InteractionServiceImpl.java:69-81 | a null or empty payload throws and saves nothing; otherwise every entry is saved in one batch and the count returned; the service itself checks no field (the entity's not-null columns are left out) |
| Services.InteractionServiceImpl.Create | src/main/java/com/s7fundops/customerworkbench/services/InteractionServiceImpl.java:83-92 | a null object throws and saves nothing; otherwise exactly one entity is saved and the saved entity is returned mapped back |
| Services.InteractionServiceImpl.Search | src/main/java/com/s7fundops/customerworkbench/services/InteractionServiceImpl.java:94-104 | null criteria or a null customer id throw; otherwise the result is the matching rows, mapped, in stored order |
| Services.InteractionServiceImpl.FindById | src/main/java/com/s7fundops/customerworkbench/services/InteractionServiceImpl.java:106-115 | a null id throws IllegalArgument; a stored id succeeds and returns the first stored row with it, mapped; an id no row has throws NotFound with the id in its message |

## Left out

- HTTP and framework plumbing is not modelled. This covers the HTTP client instance, the network side of the list request (a function parameter here), the controller's routing, status codes and headers, and JSON, multipart and OpenCSV decoding. A CSV upload enters the model as already classified: null, empty, unreadable, unparsable or parsed rows.
- Persistence is reduced to a sequence of rows. JPA identity generation, optimistic versioning, the audit timestamps, merging an entity that already has an id, and rollback are not modelled.
- Entity validation is not modelled. `InteractionLog` declares productId, customerId and interactionType `@NotNull` and `nullable = false` (domain/InteractionLog.java:23-34). An entry without them fails when it is persisted, and the transaction then rolls back the whole batch. The model's `IngestJson` and `Create` save such entries.
- Services.InteractionServiceImpl.Create: the database's id assignment is not modelled, so the returned transfer object equals the one given. An object missing a required field is saved, where the program fails on persist.
- Services.InteractionServiceImpl.Search: Spring Data paging and the default newest-first sort are not modelled. The result is every matching row, in stored order.
- Services.InteractionServiceImpl.IngestJson: null entries inside a JSON payload are not modelled. An entry missing a required field is saved, where the program fails on persist and rolls back the batch (see entity validation above).
- Services.FirstWithId: duplicate ids, which the database cannot hold, are resolved by taking the first stored row.
- React rendering, effect scheduling and overlapping loads are not modelled. A load runs from begin to completion before the next starts, so the race in which the last request to settle wins is not captured. The mount-time load is an ordinary call to `Load` with the hook's query.
- Pages.BuildQuery: `Number(...)` and `new Date(...).toISOString()` are function parameters. So NaN for a non-numeric customer id, and the exception for an invalid date, are not modelled. JavaScript numbers are modelled as integers.
- Format.Truncate: lengths and the cut are counted in Unicode scalar values, since Dafny strings are sequences of them. JavaScript counts UTF-16 code units. For text outside the Basic Multilingual Plane the model cuts later than the program: 41 emoji with limit 80 are 82 code units, which the program cuts to 40 emoji and the ellipsis, and the model returns unchanged. The program's cut can also split a surrogate pair, which the model cannot represent.
- Pages.MessageCell: shares the counting of `Format.Truncate`, so its 120-character limit is in Unicode scalar values, not UTF-16 code units.
- Format.FormatDateTime: date parsing and locale rendering are a function parameter. Only the branch for a missing or empty value is fixed by the model.
- Presentation is not modelled: the UI primitives, the layout, the upload and create dialogs, and the build configuration.
- Random and clock-driven data generation at start-up is not modelled.
