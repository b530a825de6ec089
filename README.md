# Transaction CRUD API — a Dafny model

This project models the core of a small Go HTTP service that keeps payment
transactions: records with a user id, an amount, a status (`pending`,
`failed` or `success`), an optimistic-concurrency version and two timestamps.
The model covers five parts:

- **The transaction store** (`Data.TransactionModel`). The PostgreSQL table
  becomes a class holding a `map<int, Transaction>` and the next value of the
  id sequence. Its methods are Insert, Get, Update (a compare-and-swap on id
  and version), Delete and GetAll. GetAll filters by status, orders by one
  column and direction with ties broken by id, and slices by limit and
  offset. The SQL engine that GetAll relies on is written out as pure
  functions in module `Engine`: it scans ids in ascending order, filters,
  insertion-sorts and cuts out the page.
- **The query-plan helpers** (`Helpers`). These are the sort-token column
  and direction and the page offset.
- **The request rules** (`Tags`, `TransactionDto`, `GetAllDto`,
  `CreateDto`). The struct tags become predicates. A small interpreter for
  `required`, `omitempty`, `min`, `max` and `oneof` checks plain and pointer
  fields, and each request type gets a lemma giving its closed form.
- **The handlers** (`Handlers`). The five endpoint handlers are methods that
  bind, validate, build or patch the record, call the store and map its
  errors to HTTP errors (`Errors`).
- **The validation-error text** (`Validator.Error`). This is the builder
  loop over the failure map, with its early returns.

The database clock, storage failures and request binding are inputs to the
model:

- timestamps are integers the caller or the database supplies;
- `fault: Option<string>` stands for a database failure, which comes back as
  `Backend(cause)`;
- `Binding<T>` is either the bound request or the binder's error text.

The metadata calculation is not among the modelled files, so `Metadata` is
the symbolic value `CalculateMetadata(totalRecords, page, pageSize)`.

Where the code as shown disagrees with itself, the model follows the evident
intent, as described under "Left out":

- duplicated declarations;
- store method names that differ from the ones the handlers call;
- mis-numbered SQL placeholders.

## Model

| member | source | states |
|---|---|---|
| Records.ParseStatus | internal/data/transaction.go:13-19 | a text names a status exactly when it is one of the three status texts, and then it names that status |
| Records.StatusText | internal/data/transaction.go:15-19 | the stored text of each status: `pending`, `failed` and `success`; its partners are ParseStatus and StatusTextRoundTrip |
| Records.StatusTextRoundTrip | internal/data/transaction.go:15-19 | every status is read back from its stored text |
| Data.TransactionModel.constructor | internal/data/transaction.go:31-33 | a new store is an empty table whose id sequence starts at 1 |
| Data.TransactionModel.Insert | internal/data/transaction.go:35-51 | on success it stores user id, amount and status as given under a fresh id (the sequence value, absent from the table), with version 1 and database timestamps, returns that record and changes no other row; a backend failure adds no row, and uses up the next id exactly when the failed statement had already drawn it from the sequence |
| Data.TransactionModel.Get | internal/data/transaction.go:111-146 | an id below 1 is RecordNotFound without a lookup; a database failure is passed through; otherwise it returns the row stored under the id, or RecordNotFound when there is none |
| Data.TransactionModel.Update | internal/data/transaction.go:148-176 | when a row with the caller's id has the caller's version, it rewrites that row's amount, status and update time, bumps the version by one and returns the new version to the caller, leaving every other row and column unchanged; otherwise (stale version or no row) it changes nothing and fails with EditConflict; a database failure changes nothing |
| Data.Rewritten | internal/data/transaction.go:150-153 | the row after the SET clause keeps id, user id and creation time, takes amount, status and update time from the caller, and has the next version |
| Data.RewriteInvalidatesVersion | internal/data/transaction.go:151-153 | after a successful rewrite, a later update on the same id hits only if it carries the version the first update handed back, so a second update with the old version conflicts |
| Data.NextIdIsFresh | internal/data/transaction.go:36-39 | the id the sequence hands out next is not a stored id, even after deletes |
| Data.TransactionModel.Delete | internal/data/transaction.go:178-199 | an id below 1 or an absent row is RecordNotFound and changes nothing; a database failure changes nothing; otherwise exactly that row is removed |
| Data.TransactionModel.GetAll | internal/data/transaction.go:53-109 | an unset limit or offset fails; a non-empty sort token without a resolved column or direction fails; otherwise the result is the page at limit/offset of the filtered, ordered rows, nil for an empty page, with the metadata of the total count read from the page's rows (0 for a page past the end); the loop appends each row and overwrites the count |
| Data.PaginationSet | internal/data/transaction.go:54-56 | the first guard of the list query: limit and offset are both set; GetAll answers an unset one with an error and no rows |
| Data.SortUnresolved | internal/data/transaction.go:58-60 | the second guard: a sort token was given but its column or its direction was not resolved |
| Data.Executable | internal/data/transaction.go:62-77 | the database runs the built statement: the ORDER BY names one of the seven columns of the table and ASC or DESC, and LIMIT and OFFSET are not negative; GetAll answers any other statement with MalformedQuery, and Handlers.ValidatedPlanExecutes shows a validated request always meets it |
| Data.TableListing | internal/data/transaction.go:62-67 | for a table that keeps its invariant, the listing is ordered, holds exactly the rows matching the status filter (all rows for the empty filter), and its length is the number of matching rows |
| Engine.ParseColumn | internal/data/transaction.go:66 | an ORDER BY text names a column exactly when it is one of the table's seven column names (`id`, `user_id`, `amount`, `status`, `version`, `created_at`, `updated_at`); the store takes any of them, not only the four the list request allows, and `Scenarios.ListByUserId` lists by `user_id` |
| Engine.ParseDirection | internal/data/transaction.go:66 | an ORDER BY direction is one of the two keywords ASC and DESC |
| Engine.StatusRankIsTextOrder | internal/data/transaction.go:66 | ordering by the status rank is ordering by the status text |
| Engine.Matches | internal/data/transaction.go:65 | the filter `status = $1 OR $1 = ''`: a row matches when its status text equals the filter, and every row matches the empty filter |
| Engine.Key | internal/data/transaction.go:66 | the value a row is ordered by under each of the seven columns, with status ranked in text order (Engine.StatusRankIsTextOrder) |
| Engine.Before | internal/data/transaction.go:66 | `ORDER BY column direction, id ASC`: by the key in the chosen direction, ties by ascending id; BeforeTotal, BeforeTransitive and BeforeNotBoth prove it a strict total order on distinct ids |
| Engine.BeforeTotal | internal/data/transaction.go:66 | the order "column in direction, then id ascending" ranks any two rows with distinct ids |
| Engine.BeforeTransitive | internal/data/transaction.go:66 | that order is transitive |
| Engine.BeforeNotBoth | internal/data/transaction.go:66 | that order is irreflexive and asymmetric |
| Engine.ScanMembers | internal/data/transaction.go:63-65 | the scan holds a row exactly when it is stored under its id in range and matches the filter |
| Engine.ScanAscending | internal/data/transaction.go:63-65 | the scan visits rows in ascending id order |
| Engine.ScanCount | internal/data/transaction.go:63-65 | the scan has one row per matching stored id |
| Engine.SortRows | internal/data/transaction.go:66 | sorting is a permutation of its input |
| Engine.InsertRowSorted | internal/data/transaction.go:66 | inserting a row with a new id into a sorted sequence keeps it sorted |
| Engine.SortRowsSorted | internal/data/transaction.go:66 | sorting rows with distinct ids yields a sorted sequence |
| Engine.SortedUnique | internal/data/transaction.go:66 | two sorted sequences with the same members are equal: the tie-break on id makes the order unique |
| Engine.Listing | internal/data/transaction.go:62-67 | the rows of the statement without its LIMIT/OFFSET: the rows matching the filter in ascending id order, then ordered by the column in the direction (its properties are stated by Engine.ListingSpec) |
| Engine.ListingSpec | internal/data/transaction.go:62-67 | the listing is sorted, holds exactly the matching rows in range, and its length is the matching count |
| Engine.Page | internal/data/transaction.go:67 | the page holds min(limit, rows left) rows starting at the offset, none past the end |
| Engine.ConsecutivePages | internal/data/transaction.go:67 | two consecutive pages of one size make up the page of twice that size |
| Engine.TwentyFiveRowsInPagesOfTen | internal/data/transaction.go:67 | 25 rows in pages of 10 give pages of 10, 10, 5 and 0 rows |
| Engine.ResultRows | internal/data/transaction.go:63 | each result row pairs a page row with the window count of all matching rows |
| Strings.TrimPrefix | cmd/api/helpers.go:7-9 | one leading copy of the prefix is removed when present; otherwise the text is unchanged |
| Helpers.SortColumn | cmd/api/helpers.go:7-9 | the column is the token without one leading `-`; a token without one is unchanged |
| Helpers.SortDirection | cmd/api/helpers.go:11-17 | the direction is DESC exactly when the token starts with `-`, else ASC, and always one of the two |
| Helpers.PageOffset | cmd/api/helpers.go:19-21 | page 1 has offset 0, and a page of at least 1 with a non-negative size has a non-negative offset |
| Helpers.NextPageOffset | cmd/api/helpers.go:19-21 | consecutive pages start exactly one page size apart |
| Helpers.ValidatedOffsetInRange | cmd/api/helpers.go:19-21 | for a validated page and page size the offset is within 0..99900 and so cannot overflow |
| Helpers.ResolutionInjective | cmd/api/helpers.go:7-17 | two tokens with the same column and direction are the same token |
| Helpers.AllowListedTokensResolve | cmd/api/dto/transaction_dto.go:22 | each of the eight list tokens resolves to one of the four column names |
| Helpers.ValueAllowListedTokensResolve | cmd/api/dto/transaction_get_all_dto.go:11 | each non-empty token of the value-typed list request resolves to amount, status or created_at with ASC or DESC, so no other text can reach the ORDER BY |
| Helpers.ColumnsOfTokens | cmd/api/helpers.go:7-9 | the column each of the eight tokens resolves to |
| Tags.NumFailure | cmd/api/dto/transaction_dto.go:4-17 | the rule reported as failing is one of the field's rules |
| Tags.TextFailure | cmd/api/dto/transaction_dto.go:11-27 | the rule reported as failing is one of the field's rules |
| Tags.Report | cmd/api/handler_transaction.go:21-23 | a key is in the failure report exactly when a check of that field failed; each key's value is the name of a rule that field broke, and for a field checked once it is the rule of that check |
| Tags.ReportEmpty | cmd/api/handler_transaction.go:21-23 | the report is empty exactly when no field failed |
| Tags.RequiredMinIff | cmd/api/dto/transaction_dto.go:4 | `required,min=b` on a plain int accepts exactly the non-zero values of at least b |
| Tags.OmitMinIff | cmd/api/dto/transaction_dto.go:10 | `omitempty,min=b` on a pointer accepts nil and exactly the targets of at least b |
| Tags.OmitRangeIff | cmd/api/dto/transaction_dto.go:16-17 | `omitempty,min=lo,max=hi` accepts a field without a value and exactly the values in lo..hi |
| Tags.OmitOneOfIff | cmd/api/dto/transaction_dto.go:11 | `omitempty,oneof=...` accepts a field without a value and exactly the listed texts |
| TransactionDto.CreateValid | cmd/api/dto/transaction_dto.go:3-6 | the create tags: `required,min=1` on the user id and `required,min=0` on the amount, both plain ints |
| TransactionDto.CreateErrors | cmd/api/dto/transaction_dto.go:3-6 | the create request's failure report is empty exactly when the request is valid |
| TransactionDto.CreateValidIff | cmd/api/dto/transaction_dto.go:3-6 | a create request is valid exactly when user id is at least 1 and amount at least 1 (`required` rejects amount 0 although `min=0`) |
| TransactionDto.UpdateValid | cmd/api/dto/transaction_dto.go:8-12 | the update tags: `required,min=1` on the path id, `omitempty,min=0` on the amount pointer and `omitempty,oneof=pending failed success` on the status pointer |
| TransactionDto.UpdateErrors | cmd/api/dto/transaction_dto.go:8-12 | the update request's failure report is empty exactly when the request is valid |
| TransactionDto.UpdateValidIff | cmd/api/dto/transaction_dto.go:8-12 | an update is valid exactly when the id is at least 1, a given amount is at least 0 and a given status is one of the three |
| TransactionDto.GetAllValid | cmd/api/dto/transaction_dto.go:14-29 | the pointer-typed list tags on page, page size, sort token and status; limit, offset, column and direction carry none |
| TransactionDto.GetAllErrors | cmd/api/dto/transaction_dto.go:14-29 | the list request's failure report is empty exactly when the request is valid |
| TransactionDto.GetAllValidIff | cmd/api/dto/transaction_dto.go:14-29 | a list request is valid exactly when a given page is in 1..1000, a given page size in 1..100, a given sort token one of the eight and a given status one of the three |
| TransactionDto.ParamIdValid | cmd/api/dto/transaction_dto.go:31-33 | the path-id tag `required,min=1` on a plain int |
| TransactionDto.ParamIdValidIff | cmd/api/dto/transaction_dto.go:31-33 | a path id is valid exactly when it is at least 1 |
| GetAllDto.GetAllValid | cmd/api/dto/transaction_get_all_dto.go:3-18 | the value-typed list tags, where a zero page, page size or empty text holds no value and so skips the remaining rules |
| GetAllDto.GetAllErrors | cmd/api/dto/transaction_get_all_dto.go:3-18 | the value-typed list request's failure report is empty exactly when it is valid |
| GetAllDto.GetAllValidIff | cmd/api/dto/transaction_get_all_dto.go:3-18 | page is 0 or in 1..1000, page size 0 or in 1..100, the sort token empty or one of six, the status empty or one of three |
| GetAllDto.IdSortRejected | cmd/api/dto/transaction_get_all_dto.go:11 | the tokens `id` and `-id` are rejected by the value-typed list request |
| CreateDto.CreateValid | cmd/api/dto/transaction_create_dto.go:3-6 | the second create declaration's tags: `required,min=1` on both fields |
| CreateDto.CreateValidIff | cmd/api/dto/transaction_create_dto.go:3-6 | the second create declaration is valid exactly when user id and amount are both at least 1 |
| CreateDto.CreateRejects | cmd/api/dto/transaction_create_dto.go:4-5 | a user id of 0 or below, or an amount of 0 or below, is rejected |
| CreateDto.DeclarationsAgree | cmd/api/dto/transaction_create_dto.go:3-6 | the two create declarations accept the same requests |
| Errors.FirstOr | cmd/api/errors.go:24-30 | the first optional argument when given and non-empty, else the default |
| Errors.ErrInternalServer | cmd/api/errors.go:11-22 | status 500 with the fixed generic message |
| Errors.InternalServerHidesCause | cmd/api/errors.go:11-22 | the server error is the same whatever the cause and log message |
| Errors.ErrNotFound | cmd/api/errors.go:24-30 | status 404 with the default message unless a non-empty first argument is given |
| Errors.MethodNotAllowedText | cmd/api/errors.go:35 | the text `the <method> method is not supported for this resource`: the method name sits at position 4, followed by the fixed tail |
| Errors.ErrMethodNotAllowed | cmd/api/errors.go:32-37 | status 405 with a message that embeds the method name at a fixed position |
| Errors.MethodNotAllowedInjective | cmd/api/errors.go:32-37 | distinct methods give distinct errors |
| Errors.ErrBadRequest | cmd/api/errors.go:39-41 | status 400 with exactly the given message |
| Errors.ErrFailedValidation | cmd/api/errors.go:43-45 | status 422 carrying the failure map unchanged |
| Errors.ErrEditConflict | cmd/api/errors.go:47-52 | status 409 with the fixed conflict message |
| Errors.ErrRateLimitExceeded | cmd/api/errors.go:54-56 | status 429 with the fixed message |
| Errors.ErrForbidden | cmd/api/errors.go:58-64 | status 403 with default "forbidden" unless a non-empty first argument is given |
| Errors.DefaultsOnlyWhenEmpty | cmd/api/errors.go:24-30 | a non-empty first argument replaces the default of both not-found and forbidden |
| Validator.Join | internal/validator/error.go:22-33 | the segments with "; " written before every segment but the first, as the builder loop writes them (lengths and ends stated by Validator.JoinLength and Validator.JoinEnds) |
| Validator.Render | internal/validator/error.go:11-33 | "map[]" when no key is visited, otherwise the joined segments of the visited keys in visiting order |
| Validator.Segment | internal/validator/error.go:18 | the `"%s: %s"` text of one entry: the field, then `: `, then the message, so both parts can be read back at fixed positions |
| Validator.Segments | internal/validator/error.go:18 | one `field: message` segment per visited key, in visiting order |
| Validator.Error | internal/validator/error.go:11-34 | the text is the rendering of the map in an order that lists every key exactly once; whatever that order, no entries give exactly "map[]", one entry gives exactly its `field: message` segment, every entry's segment occurs in the text, and the text is never empty |
| Validator.JoinContains | internal/validator/error.go:25-31 | every segment written by the builder occurs in the final text |
| Validator.RenderFacts | internal/validator/error.go:11-34 | for every visiting order: "map[]" for no entries, the single segment for one entry, each entry's segment somewhere in the text, and a non-empty text |
| Validator.JoinSnoc | internal/validator/error.go:25-31 | adding one more entry to the builder appends "; " and its segment |
| Validator.EnumerationLength | internal/validator/error.go:25-31 | an enumeration of the map has exactly as many keys as the map |
| Validator.EmptyMapText | internal/validator/error.go:12-14 | an empty map renders as exactly "map[]" |
| Validator.SingleEntryText | internal/validator/error.go:16-20 | a one-entry map renders as exactly `field: message` |
| Validator.JoinLength | internal/validator/error.go:22-33 | n segments are joined by exactly n−1 two-character separators |
| Validator.JoinEnds | internal/validator/error.go:26-28 | the text starts with the first segment and ends with the last, so there is no separator at either end |
| Validator.EachEntryOnce | internal/validator/error.go:25-31 | each entry is visited at exactly one position, and its segment is there |
| Validator.RenderNotEmpty | internal/validator/error.go:11-34 | the text is never empty |
| Handlers.NewTransaction | cmd/api/handler_transaction.go:25-32 | the new record has the request's user id and amount, is pending with version 1 and carries the two clock readings |
| Handlers.AcceptedRequestBuildsPositiveRecord | cmd/api/handler_transaction.go:21-32 | a record built from an accepted create request has a user id and an amount of at least 1 |
| Handlers.RequestedStatus | cmd/api/handler_transaction.go:116-118 | an absent status requests no change; a present one of the three requests that status |
| Handlers.Patched | cmd/api/handler_transaction.go:113-119 | a given amount or status replaces the stored one and an absent one keeps it; the update time is refreshed; id, user id, version and creation time are untouched |
| Handlers.PatchTransaction | cmd/api/handler_transaction.go:113-119 | the field-by-field patch produces the patched record |
| Handlers.PatchIdempotent | cmd/api/handler_transaction.go:113-119 | applying a patch twice is applying it once |
| Handlers.PatchOfFetchedRowIsStored | cmd/api/handler_transaction.go:103-131 | a patched fresh fetch wins the compare-and-swap, and the stored row is the patched record with the next version |
| Handlers.GetErrorResponse | cmd/api/handler_transaction.go:48-56 | RecordNotFound maps to 404 with the default message; any other error maps to 500 |
| Handlers.UpdateErrorResponse | cmd/api/handler_transaction.go:121-129 | EditConflict maps to 409; any other error maps to 500 |
| Handlers.ErrorCodesClassify | cmd/api/handler_transaction.go:50-55 | the status code alone tells NotFound and EditConflict from other errors |
| Handlers.Defaults | cmd/api/handler_transaction.go:137-140 | the list defaults are page 1, page size 10 and sort token "id", with no filter |
| Handlers.BindQuery | cmd/api/handler_transaction.go:142 | binding overwrites exactly the fields the query supplies |
| Handlers.BoundRequest | cmd/api/handler_transaction.go:137-142 | the list request after the defaults are set and the query is bound over them |
| Handlers.ResolvePlan | cmd/api/handler_transaction.go:150-153 | the limit is the page size, the offset that of the page, and direction and column come from the sort token |
| Handlers.StoreQuery | cmd/api/handler_transaction.go:155 | the store reads the dereferenced fields, with an absent status filter read as "" |
| Handlers.Plan | cmd/api/handler_transaction.go:137-155 | every validated list request gives a query the store runs: limit in 1..100, offset in 0..99900, a known column and keyword, and the filter empty or a status |
| Handlers.ValidatedPlanExecutes | cmd/api/handler_transaction.go:146-153 | the plan resolved from a request that passes validation meets every condition the store checks before running the query |
| Handlers.DefaultPlanIsFirstPageById | cmd/api/handler_transaction.go:137-153 | a request without query values lists 10 rows from offset 0 by ascending id, unfiltered |
| Handlers.CreateTransactionHandler | cmd/api/handler_transaction.go:14-40 | a bind error answers 400 and an invalid request answers 422 with its report, both without touching the store or its id sequence; a store failure answers 500, adds no row and uses up the id exactly when one was drawn; otherwise the store holds the new pending record under the next id, the sequence moves on by one and the answer is 201 with the record |
| Handlers.GetByIdTransactionHandler | cmd/api/handler_transaction.go:42-59 | a bind error answers 400; an id below 1 or with no row answers 404; a store failure answers 500; otherwise 200 with the stored row |
| Handlers.RemoveByIdTransactionHandler | cmd/api/handler_transaction.go:61-85 | fetches first and answers 404 when there is no row; deletes by the fetched id; answers 500 on a failure of either call; on success exactly that row is gone and the answer names its id |
| Handlers.DeletedMessage | cmd/api/handler_transaction.go:82-84 | the 200 body of a delete: the fixed text around the id written in decimal, spelled as the source spells it (distinctness stated by Handlers.DeletedMessageInjective) |
| Handlers.DecimalText | cmd/api/handler_transaction.go:83 | the id is written as a non-empty run of decimal digits without a leading zero |
| Handlers.DigitValue | cmd/api/handler_transaction.go:83 | each printed digit stands for its value |
| Handlers.DecimalRoundTrip | cmd/api/handler_transaction.go:83 | the digits read back as the id they were printed from |
| Handlers.DeletedMessageInjective | cmd/api/handler_transaction.go:82-84 | distinct ids give distinct delete messages |
| Handlers.UpdateByIdTransactionHandler | cmd/api/handler_transaction.go:87-132 | bind errors answer 400; an invalid request answers 422 with its report; a missing row answers 404; failures answer 500; otherwise the stored row is the patched record with the next version and the answer is 200 with it |
| Handlers.GetAllTransactionHandler | cmd/api/handler_transaction.go:134-165 | a bind error answers 400; an invalid query answers 422; a store failure answers 500; otherwise 200 with the page of the resolved plan (empty, not nil, when there are no rows) and its metadata |
| Scenarios.CreateUpdateConflict | internal/data/transaction.go:148-176 | create gives id 1 and version 1; an update with version 1 stores version 2; a second update with version 1 conflicts and leaves the row as the first update wrote it |
| Scenarios.DeleteThenGet | internal/data/transaction.go:178-199 | after a delete the id is not found, and the next insert gets a new id |
| Scenarios.FailedInsertLeavesGap | internal/data/transaction.go:35-51 | an insert that fails after drawing id 1 stores nothing, and the next insert gets id 2 |
| Scenarios.InsertGetRoundTrip | internal/data/transaction.go:35-146 | an inserted record reads back exactly as the store returned it |
| Scenarios.CreateFetchRemoveFetch | cmd/api/handler_transaction.go:14-85 | create answers 201, fetch 200 with the same record, remove 200 with the message naming id 1, and a second fetch 404 |
| Scenarios.DeletedMessageOfOne | cmd/api/handler_transaction.go:82-84 | the delete message for id 1 reads "transaction record with id 1 succesfully dedelte" |
| Scenarios.ZeroAmountRefused | cmd/api/handler_transaction.go:21-23 | a create with amount 0 answers 422 and stores nothing |
| Scenarios.ListByUserId | internal/data/transaction.go:62-67 | a list sorted by `user_id`, a column outside the request's allow-list, runs and returns the rows in ascending user id |
| Scenarios.ListEmptyTable | cmd/api/handler_transaction.go:160-162 | listing an empty table answers 200 with an empty list |

## Left out

- SQL and the database are not modelled. `database/sql`, the three-second
  context deadlines, `RowsAffected` and `Scan` become an in-memory table.
  Any database failure is the `fault` parameter. The SQL engine is modelled
  only for the query GetAll builds: status equality, one ORDER BY column
  with ties by id, and LIMIT/OFFSET. An ORDER BY text that is neither one of
  the table's seven lower-case column names nor one of the two keywords is a
  `MalformedQuery` error. So is a
  negative LIMIT or OFFSET, which the database rejects when it runs the
  statement. Injected SQL is not interpreted.
- Engine.ParseColumn and Engine.ParseDirection match names exactly. The
  database folds unquoted identifiers and keywords to one case, so it would
  also run `User_Id` or `asc`; the model treats such text as a
  `MalformedQuery` (Data.Executable). Only the handler's resolved tokens,
  which are always lower-case names and `ASC` or `DESC`, reach the store here.
- Status ordering uses the byte order of the texts, as the C collation
  gives it. Locale collations are not modelled.
- Concurrency is not modelled: connection pooling and racing writers. The
  compare-and-swap is modelled sequentially. So in the model the update
  handler's store update cannot conflict after its own fetch;
  `Handlers.UpdateErrorResponse` states the mapping for when it does.
- The metadata calculation and its type are outside the modelled files.
  `Metadata` is the symbolic `CalculateMetadata(totalRecords, page, pageSize)`.
- Timestamps are integers. The two clock readings of the create handler are
  parameters, and the database's `created_at` and `updated_at` are
  parameters of Insert.
- The column default of `version` is taken to be 1, matching the record
  the create handler builds. The schema is not part of this model.
- Data.TransactionModel.Update models the compare-and-swap that the column
  list names (`WHERE id = <id> AND version = <version>`). The SQL as
  written mis-numbers its placeholders: it compares id with the update time
  and version with the id, and passes five arguments for four placeholders.
- Data.TransactionModel.GetAll requires a resolved column and direction
  when the sort token is empty. The source dereferences both pointers
  unconditionally. `Handlers.Plan` shows that the handler always sets them.
- The dto package declares `TransactionCreateDTO` and `TransactionGetAllDTO`
  twice, which does not compile. Each declaration is modelled on its own:
  - `TransactionDto` and `CreateDto` for the create request, shown
    equivalent by `CreateDto.DeclarationsAgree`;
  - the pointer-typed `TransactionDto.TransactionGetAllDto` for the list
    request's validation in the handler;
  - the value-typed `GetAllDto.TransactionGetAllDto` for what the store
    reads, since the store compares `RawValue` with the empty string as a
    plain string (internal/data/transaction.go:58).

  `Handlers.StoreQuery` converts between the two list variants. The value
  variant's own rules would reject the handler's default token "id"
  (`GetAllDto.IdSortRejected`), so the handler path validates with the
  pointer variant.
- The handlers call `GetById` and `DeleteOne`. The store defines `Get` and
  `Delete`, and the model calls those. The handler also assigns plain
  values to pointer fields; the model stores them as `Some(...)`.
- Handlers.PatchTransaction requires a given status to be one of the three
  texts, because `Status` is an enumeration. The handler only reaches the
  patch after validation has established that.
- Request binding is an input. No echo binder, JSON decoding or
  path-parameter parser (`GetParamId`) is modelled, and neither is the
  serialisation of the response envelope.
- The validator library itself is not modelled beyond the tag rules used.
  The application's validator set-up, which decides the keys and texts of
  the failure report, is not part of this model. The model assumes each
  failing field is reported under one key, with the name of the first rule
  it breaks as the value. It takes the keys to be:
  - the request names from the json, query or param tags for the types in
    `cmd/api/dto/transaction_dto.go`: `user_id`, `amount`, `id`, `status`,
    `page`, `page_size` and `sort_by`;
  - the Go field names for the value-typed list request, whose fields carry
    no such tags: `Page`, `PageSize`, `RawValue` and `Status`.
- TransactionDto.ParamIdValid has no caller here, because `GetParamId` is
  not part of this model.
- Validator.Error takes the map's iteration order as nondeterministic. The
  order actually visited is returned as ghost output, and the contract
  holds for every possible order.
- Logging is not modelled (the logger call in ErrInternalServer and the
  logger package). Neither are configuration loading, middleware, routing
  and process start-up.
- Integers are unbounded. `Helpers.ValidatedOffsetInRange` shows that
  validated pages and page sizes keep the offset far from 64-bit
  wrap-around.
