# Restaurant platform sync service, modelled in Dafny

This project models the core of a service that copies a restaurant's menu from a menu
service to delivery platforms (DoorDash today). It also keeps bookkeeping on every attempt.

- **One sync pass** (`SyncServices`) covers one restaurant and one platform. It fetches the menu,
  formats it with the platform's adapter, and publishes it. If the first publish fails and retry
  is on, it waits and publishes once more. It then writes exactly one status row keyed by
  (restaurant, platform). The pure function `Pass` is the specification of a pass. The method
  `SyncService.SyncToPlatform` does the pass step by step against a status table. A batch runs
  one independent pass per configured adapter.
- **The error queue** (`ErrorServices`, `FailureReports`) records failed passes. Each record gets
  an `err_` + 12-hex id, retry count 0, and optionally a snapshot of the menu with prices as
  decimal text. The queue lists errors by restaurant and platform and increments a retry count
  by read-then-write.
- **The records and stores** (`SyncModels`, `SyncRepositories`) are sync status, sync error and
  sync operation records. Each has validators and a conversion to and from the store's item
  form. The three stores are classes over a map. A store call may fail; that is a
  nondeterministic boolean, reported by the return value and never raised.
- **The DoorDash adapter** (`DoorDash`, `Adapters`) covers base-URL selection, the menu document
  (available items only, prices in cents, every category in order) and the outcome of a publish
  over the two HTTP answers it sees.
- **The entry points** (`EventHandlers`, `AdminApi`, `LambdaEntry`, `LambdaDependencies`, `Auth`):
  - the EventBridge handler;
  - the admin routes: status, full refresh, single-platform sync, error list, error retry;
  - the `X-API-Key` check;
  - the Lambda router;
  - the container's cached factories configured from the environment.

How things outside the service are represented:

- **Network.** A pass takes a `PassWorld`. It holds the menu service's answer (None when a fetch
  failed), the platform's HTTP answers to the first and second publish attempt (`Exchange`), and
  the clock reading. A batch takes one world per platform, because every pass fetches the menu
  itself.
- **Randomness.** UUIDs are parameters: 32 lower-case hex digits each.
- **Ghost logs.** Events that can be observed but are not state are kept as ghost logs: the steps
  of a pass (`SyncService.log`) and the errors handed to the store (`ErrorService.recorded`).
- **Exact numbers.** Decimal prices are `Decimal(negative, units, scale)`, so `str(price)` keeps
  its trailing zeros. The progress percentage is an exact `real`.

The model follows the code in these points:

- Each per-platform pass fetches the menu itself (`sync_service.py:85`). There is no fetch once
  per batch.
- Errors are keyed by (`error_id`, `created_at`), as the repository keys them. The service's
  repository calls at `error_service.py:79,121,126` pass `error_id` only, `increment_retry_count`
  (`error_service.py:108`) has no `created_at` parameter, and the admin handler passes one to it
  (`api_handler.py:325-328`). Each of those calls raises `TypeError` as written. Those members are
  modelled as written and as corrected (see "## Findings"); the corrected ones pass the whole key.
- Each listing is one `query` call whose `Items` are read once (`sync_repositories.py:97,201,366`).
  DynamoDB ends a page at 1 MB and the code does not follow `LastEvaluatedKey`, so a listing is a
  prefix of what the query matched, not necessarily all of it.
- The client validates `Limit` before sending: None and values below 1 raise an error that is not
  a `ClientError`. That error escapes the repository and, in `GET /admin/errors`, the route.
- `retry_error` searches the errors listed for restaurant id `""` (`api_handler.py:294-296`), so
  it can only find errors stored under that id. The model states exactly that.

## Model

| member | source | states |
|---|---|---|
| Values.Get | src/restaurant_sync_service/handlers/event_handler.py:39 | `d.get(key, default)`, and so `os.getenv(key, default)`: the stored value for a present key, the default for an absent one |
| Text.TrimStartShape | src/lambda_dependencies.py:221 | `lstrip` removes exactly a whitespace prefix and leaves a text that does not start with whitespace |
| Text.TrimEndShape | src/lambda_dependencies.py:221 | `rstrip` removes exactly a whitespace suffix and leaves a text that does not end with whitespace |
| Text.StripShape | src/lambda_dependencies.py:221 | a stripped key has no whitespace at either end and has only characters of the original |
| Text.Split | src/lambda_dependencies.py:221 | `split(",")` always yields at least one piece |
| Text.SplitPartsHaveNoSeparator | src/lambda_dependencies.py:221 | no piece of a split contains the separator |
| Text.JoinSplit | src/lambda_dependencies.py:221 | joining the pieces with the separator gives the original text back |
| Text.Lower | src/lambda_dependencies.py:85 | `lower()` keeps the length and lowers every character in place |
| Text.Escaped | src/lambda_dependencies.py:142 | the quoted body of a `repr` is at least as long as the text and equals it when there is nothing to escape |
| Text.UnescapedEscaped | src/lambda_dependencies.py:142 | an escaped body reads back as the text |
| Text.Repr | src/lambda_dependencies.py:142 | the text is between two equal quotes, double exactly when it holds a single quote and no double quote, and the body between them reads back as the text |
| Text.ReprExamples | src/lambda_dependencies.py:142 | `repr("a")` is `'a'`, `repr("'")` is `"'"` and a backslash is doubled |
| Decimals.NonNegativeValue | src/restaurant_sync_service/models/menu_models.py:22 | a decimal's value is non-negative exactly when it has no minus sign or is zero |
| Decimals.ParseToString | src/restaurant_sync_service/services/error_service.py:161 | `Decimal(str(d)) == d`: the printed price reads back as the same decimal, scale included |
| MenuModels.NewMenuItem | src/restaurant_sync_service/models/menu_models.py:13-25 | an item is built exactly when the price is non-negative (`ge=0`), with the given fields; otherwise the price is the field in error |
| MenuModels.NewMenuItemDefaults | src/restaurant_sync_service/models/menu_models.py:21-25 | with only the required fields an item is available and has no description or image |
| MenuModels.NewCategoryDefaults | src/restaurant_sync_service/models/menu_models.py:28-35 | a category's sort order defaults to 0 and its description to None |
| SyncModels.ParseStatusEnum | src/restaurant_sync_service/models/sync_models.py:14-20 | any member parsed from a text has that text as its value |
| SyncModels.StatusEnumRoundTrip | src/restaurant_sync_service/models/sync_models.py:14-20 | parsing a member's value gives the member back |
| SyncModels.RequiredString | src/restaurant_sync_service/models/sync_models.py:68-93 | a required text field reads exactly when the key is present and holds a string, and gives that string |
| SyncModels.OptionalString | src/restaurant_sync_service/models/sync_models.py:68-93 | an optional text field is None when absent or null, the string when one is stored, an error otherwise |
| SyncModels.RequiredTime | src/restaurant_sync_service/models/sync_models.py:68-93 | a timestamp field reads exactly when the key holds a string, and gives the timestamp of that text |
| SyncModels.NewSyncStatus | src/restaurant_sync_service/models/sync_models.py:23-43 | a status is built exactly when `item_count` is None or non-negative, with the given fields; otherwise `item_count` is in error |
| SyncModels.StatusToItem | src/restaurant_sync_service/models/sync_models.py:45-66 | the item has the key and status attributes plus exactly the optional fields that are not None |
| SyncModels.OptionalCount | src/restaurant_sync_service/models/sync_models.py:68-93 | an optional count is None when absent or null and the stored number otherwise |
| SyncModels.StatusFromItem | src/restaurant_sync_service/models/sync_models.py:68-93 | a missing `restaurant_id` fails; a parsed status holds the item's attributes, and absent optional keys read as None |
| SyncModels.StatusRoundTrip | src/restaurant_sync_service/models/sync_models.py:45-93 | writing a status and reading it back gives the same status |
| SyncModels.StatusItemRoundTrip | src/restaurant_sync_service/models/sync_models.py:45-93 | re-writing a parsed item reproduces every attribute it writes |
| SyncModels.NewSyncError | src/restaurant_sync_service/models/sync_models.py:96-119 | an error is built exactly when `retry_count` is non-negative, with the given fields |
| SyncModels.NewSyncErrorDefaults | src/restaurant_sync_service/models/sync_models.py:96-119 | by default an error has retry count 0 and no snapshot |
| SyncModels.ErrorToItem | src/restaurant_sync_service/models/sync_models.py:121-139 | `retry_count` is always written and `menu_snapshot` only when present |
| SyncModels.ErrorFromItem | src/restaurant_sync_service/models/sync_models.py:141-163 | a parsed error holds the item's attributes; a missing `retry_count` reads as 0 |
| SyncModels.ErrorRoundTrip | src/restaurant_sync_service/models/sync_models.py:121-163 | writing an error and reading it back gives the same error |
| SyncModels.ErrorItemRoundTrip | src/restaurant_sync_service/models/sync_models.py:121-163 | re-writing a parsed item that has a retry count reproduces every attribute it writes |
| SyncModels.NewSyncOperation | src/restaurant_sync_service/models/sync_models.py:166-194 | an operation is built exactly when `total_items > 0` and `items_processed >= 0`, with the given fields |
| SyncModels.ProgressPercentage | src/restaurant_sync_service/models/sync_models.py:196-205 | the percentage is non-negative, 0 exactly when nothing is processed or the total is 0, 100 exactly when all items are processed, and at most 100 exactly when processed does not exceed the total |
| SyncModels.ProgressExamples | src/restaurant_sync_service/models/sync_models.py:196-205 | 42 of 100 gives 42, 0 gives 0, and 100 of 100 gives 100 |
| SyncModels.OperationToItem | src/restaurant_sync_service/models/sync_models.py:207-220 | the item has exactly the six attributes, the status as its text |
| SyncModels.OperationFromItem | src/restaurant_sync_service/models/sync_models.py:222-239 | a parsed operation passes the validators and holds the item's attributes; a missing `items_processed` reads as 0 |
| SyncModels.OperationRoundTrip | src/restaurant_sync_service/models/sync_models.py:207-239 | writing a valid operation and reading it back gives the same operation |
| SyncModels.OperationItemRoundTrip | src/restaurant_sync_service/models/sync_models.py:207-239 | re-writing a parsed item that has `items_processed` reproduces every attribute |
| SyncRepositories.RetryCountItemUpdate | src/restaurant_sync_service/repositories/sync_repositories.py:207-228 | `SET retry_count` on a stored item gives the item of the error with the new count |
| SyncRepositories.ProgressItemUpdate | src/restaurant_sync_service/repositories/sync_repositories.py:286-306 | `SET items_processed` on a stored item gives the item of the operation with the new count |
| SyncRepositories.StatusItemUpdate | src/restaurant_sync_service/repositories/sync_repositories.py:308-329 | `SET #status` on a stored item gives the item of the operation with the new status |
| SyncRepositories.Collect | src/restaurant_sync_service/repositories/sync_repositories.py:180-205 | a query returns distinct stored rows of the matching keys, all of them or `limit` of them, whichever is fewer |
| SyncRepositories.FirstPage | src/restaurant_sync_service/repositories/sync_repositories.py:195-201 | what one `query` hands back is a prefix of what it matched |
| SyncRepositories.MatchedPrefix | src/restaurant_sync_service/repositories/sync_repositories.py:180-205 | every error on a prefix of a query's matches is a stored error of the restaurant, read once, and there are at most `limit` of them |
| SyncRepositories.StatusRepository.constructor | src/restaurant_sync_service/repositories/sync_repositories.py:30-39 | a new status table has the given name and no rows |
| SyncRepositories.StatusRepository.KeysFor | src/restaurant_sync_service/repositories/sync_repositories.py:82-101 | the keys of exactly the restaurant's rows |
| SyncRepositories.StatusRepository.GetStatus | src/restaurant_sync_service/repositories/sync_repositories.py:41-63 | None for an absent key; a returned status is the stored row for that pair |
| SyncRepositories.StatusRepository.SaveStatus | src/restaurant_sync_service/repositories/sync_repositories.py:65-80 | on success only the row at (restaurant, platform) is replaced; on failure nothing changes |
| SyncRepositories.StatusRepository.ListStatusesForRestaurant | src/restaurant_sync_service/repositories/sync_repositories.py:82-101 | a prefix (one page, `[]` when the query failed) of a listing of every row of that restaurant, each exactly once |
| SyncRepositories.StatusRepository.DeleteStatus | src/restaurant_sync_service/repositories/sync_repositories.py:103-119 | on success only that key is removed |
| SyncRepositories.ErrorRepository.constructor | src/restaurant_sync_service/repositories/sync_repositories.py:128-137 | a new error table has the given name and no rows |
| SyncRepositories.ErrorRepository.KeysFor | src/restaurant_sync_service/repositories/sync_repositories.py:180-205 | the keys of exactly the restaurant's errors |
| SyncRepositories.ErrorRepository.SaveError | src/restaurant_sync_service/repositories/sync_repositories.py:139-154 | on success only the row at (error_id, created_at) is replaced |
| SyncRepositories.ErrorRepository.GetError | src/restaurant_sync_service/repositories/sync_repositories.py:156-178 | None for an absent key; a returned error is the stored row with that id and time |
| SyncRepositories.ErrorRepository.ListErrorsForRestaurant | src/restaurant_sync_service/repositories/sync_repositories.py:180-205 | fails with the client's validation message exactly when `limit` is None or below 1; otherwise a prefix (one page, `[]` when the query failed) of min(limit, their number) distinct stored errors of that restaurant, all of them when there are no more than `limit` |
| SyncRepositories.ErrorRepository.Match | src/restaurant_sync_service/repositories/sync_repositories.py:193-199 | what a query with that `Limit` matches: min(limit, their number) distinct stored errors of the restaurant, all of them when there are no more than `limit` |
| SyncRepositories.ErrorRepository.UpdateRetryCount | src/restaurant_sync_service/repositories/sync_repositories.py:207-228 | on success only the retry count of that row changes |
| SyncRepositories.OperationRepository.constructor | src/restaurant_sync_service/repositories/sync_repositories.py:237-246 | a new operation table has the given name and no rows |
| SyncRepositories.OperationRepository.KeysFor | src/restaurant_sync_service/repositories/sync_repositories.py:348-370 | the ids of exactly the restaurant's operations |
| SyncRepositories.OperationRepository.SaveOperation | src/restaurant_sync_service/repositories/sync_repositories.py:248-263 | on success only the row at that id is replaced |
| SyncRepositories.OperationRepository.GetOperation | src/restaurant_sync_service/repositories/sync_repositories.py:265-284 | None for an absent id; a returned operation is the stored, valid row |
| SyncRepositories.OperationRepository.UpdateProgress | src/restaurant_sync_service/repositories/sync_repositories.py:286-306 | on success only `items_processed` of that row changes |
| SyncRepositories.OperationRepository.UpdateStatus | src/restaurant_sync_service/repositories/sync_repositories.py:308-329 | on success only `status` of that row changes |
| SyncRepositories.OperationRepository.DeleteOperation | src/restaurant_sync_service/repositories/sync_repositories.py:331-346 | on success only that row is removed |
| SyncRepositories.OperationRepository.ListOperationsForRestaurant | src/restaurant_sync_service/repositories/sync_repositories.py:348-370 | a prefix (one page, `[]` when the query failed) of a listing of every operation of that restaurant, each exactly once |
| DoorDash.NewDoorDash | src/restaurant_sync_service/adapters/doordash_adapter.py:25-47 | the production URL exactly for "production", the sandbox URL for any other environment |
| DoorDash.DefaultEnvironmentIsSandbox | src/restaurant_sync_service/adapters/doordash_adapter.py:29 | with no environment given the adapter targets the sandbox |
| DoorDash.Available | src/restaurant_sync_service/adapters/doordash_adapter.py:68 | exactly the available items are kept |
| DoorDash.AvailableAppend | src/restaurant_sync_service/adapters/doordash_adapter.py:68 | filtering respects concatenation, so input order is kept |
| DoorDash.AvailableKeepsAll | src/restaurant_sync_service/adapters/doordash_adapter.py:68 | when every item is available nothing is dropped |
| DoorDash.PriceCents | src/restaurant_sync_service/adapters/doordash_adapter.py:87 | a non-negative price gives non-negative cents |
| DoorDash.PriceCentsFloor | src/restaurant_sync_service/adapters/doordash_adapter.py:87 | for a non-negative price the cents are the whole part of price × 100 |
| DoorDash.PriceCentsExamples | src/restaurant_sync_service/adapters/doordash_adapter.py:87 | 12.99 gives 1299, 4.50 gives 450, 10.00 gives 1000 |
| DoorDash.FormatCategory | src/restaurant_sync_service/adapters/doordash_adapter.py:71-79 | a category entry has exactly id, name, description (null when absent) and sort order, copied |
| DoorDash.FormatItem | src/restaurant_sync_service/adapters/doordash_adapter.py:82-92 | an item entry has exactly id, name, description, price, category id and image URL, copied, with the price in cents and absent texts as null |
| DoorDash.MapCategories | src/restaurant_sync_service/adapters/doordash_adapter.py:71-79 | one entry per category, in order |
| DoorDash.MapItems | src/restaurant_sync_service/adapters/doordash_adapter.py:82-92 | one entry per item, in order |
| DoorDash.FormatMenu | src/restaurant_sync_service/adapters/doordash_adapter.py:49-103 | a `{"menu": {"categories", "items"}}` document of every category and the available items |
| DoorDash.FormatMenuEntries | src/restaurant_sync_service/adapters/doordash_adapter.py:66-99 | the item entries are the formatted available items, one per available item in order; the category entries are the formatted categories, one to one in order |
| DoorDash.FormatEmptyMenu | src/restaurant_sync_service/adapters/doordash_adapter.py:94-99 | empty inputs give empty item and category lists, not None |
| DoorDash.Publish | src/restaurant_sync_service/adapters/doordash_adapter.py:105-154 | accepted exactly when the token answer is 200 with a token and the upload answer is 200; the upload is sent exactly when a token was obtained |
| DoorDash.UploadTarget | src/restaurant_sync_service/adapters/doordash_adapter.py:136-143 | the upload goes to the `ext_`-prefixed store under the adapter's base URL |
| DoorDash.AsAdapterBehaves | src/restaurant_sync_service/adapters/doordash_adapter.py:38 | through the adapter contract the adapter is named "doordash" and formats and publishes as `FormatMenu` and `Publish` |
| ErrorServices.NewErrorId | src/restaurant_sync_service/services/error_service.py:50 | an id is `err_` followed by the first 12 hex digits of the UUID |
| ErrorServices.NewErrorIdInjective | src/restaurant_sync_service/services/error_service.py:50 | two ids are equal exactly when their UUIDs share the first 12 digits |
| ErrorServices.OptionalJson | src/restaurant_sync_service/services/error_service.py:160-164 | None becomes null and a text becomes a JSON string |
| ErrorServices.SerializeMenuItem | src/restaurant_sync_service/services/error_service.py:147-165 | every item field under its own name, the price as decimal text |
| ErrorServices.SerializeCategory | src/restaurant_sync_service/services/error_service.py:167-182 | every category field under its own name |
| ErrorServices.MenuItemSnapshotRoundTrip | src/restaurant_sync_service/services/error_service.py:147-165 | a serialized item reads back as the same item, price included |
| ErrorServices.CategorySnapshotRoundTrip | src/restaurant_sync_service/services/error_service.py:167-182 | a serialized category reads back as the same category |
| ErrorServices.SerializeItems | src/restaurant_sync_service/services/error_service.py:143 | one serialized entry per item, in order |
| ErrorServices.SerializeCategories | src/restaurant_sync_service/services/error_service.py:144 | one serialized entry per category, in order |
| ErrorServices.CreateMenuSnapshot | src/restaurant_sync_service/services/error_service.py:128-145 | a snapshot has exactly "items" and "categories", serialized in order |
| ErrorServices.ItemsSnapshotRoundTrip | src/restaurant_sync_service/services/error_service.py:143 | the serialized item list reads back as the same list |
| ErrorServices.CategoriesSnapshotRoundTrip | src/restaurant_sync_service/services/error_service.py:144 | the serialized category list reads back as the same list |
| ErrorServices.MenuSnapshotRoundTrip | src/restaurant_sync_service/services/error_service.py:128-145 | a snapshot keeps the whole menu: reading it gives the items and categories back in order |
| ErrorServices.RecordedError | src/restaurant_sync_service/services/error_service.py:50-65 | the new error has the fresh id, the clock reading, retry count 0 and the given fields, and a snapshot exactly when both items and categories were given |
| ErrorServices.RecordedSnapshotKeepsMenu | src/restaurant_sync_service/services/error_service.py:52-55 | a recorded snapshot gives back the menu that failed to sync |
| ErrorServices.ForwardedLimit | src/restaurant_sync_service/services/error_service.py:97-100 | the caller's limit when given, otherwise the repository's default of 50 |
| ErrorServices.FilterPlatform | src/restaurant_sync_service/services/error_service.py:103-106 | without a platform name nothing is filtered; with one, exactly the listed errors of that platform are kept |
| ErrorServices.FilterPlatformAppend | src/restaurant_sync_service/services/error_service.py:103-106 | the filter keeps the listed order: filtering a concatenation gives the concatenation of the filtered parts |
| ErrorServices.ErrorService.constructor | src/restaurant_sync_service/services/error_service.py:22-28 | the service works on the given repository and has recorded nothing |
| ErrorServices.ErrorService.RecordSyncError | src/restaurant_sync_service/services/error_service.py:30-68 | the id is returned exactly when the save succeeded, in which case the table gains that error; otherwise the table is unchanged |
| ErrorServices.ErrorService.GetError | src/restaurant_sync_service/services/error_service.py:70-79 | None for an absent key; a returned error is the stored one |
| ErrorServices.ErrorService.GetErrorAsWritten | src/restaurant_sync_service/services/error_service.py:70-79 | as written: every call fails with the `TypeError` of the repository's missing `created_at`, and nothing is read |
| ErrorServices.ErrorService.GetErrorsForRestaurant | src/restaurant_sync_service/services/error_service.py:81-106 | with the limit the service is evidently meant to forward (the caller's, else 50): fails with the client's validation message exactly when that limit is below 1; otherwise a prefix of what the query matched, and only the named platform's errors when one is named |
| ErrorServices.ErrorService.GetErrorsForRestaurantAsWritten | src/restaurant_sync_service/services/error_service.py:81-106 | as written: fails with the client's validation message exactly when no limit is given or it is below 1 (`Limit=None` for the default); otherwise the same page and filter as the corrected call |
| ErrorServices.ErrorService.IncrementRetryCount | src/restaurant_sync_service/services/error_service.py:108-126 | false and no write for a missing error; otherwise the stored count becomes old + 1 exactly when the update reports success |
| ErrorServices.ErrorService.IncrementRetryCountAsWritten | src/restaurant_sync_service/services/error_service.py:108-126 | as written: fails with the `TypeError` of the one-argument `get_error` before any write |
| FailureReports.Failures | src/restaurant_sync_service/handlers/event_handler.py:95 | exactly the failed results |
| FailureReports.Successes | src/restaurant_sync_service/handlers/event_handler.py:94 | exactly the successful results |
| FailureReports.SuccessesAndFailuresPartition | src/restaurant_sync_service/handlers/event_handler.py:94-95 | every result is counted as one success or one failure |
| FailureReports.Details | src/restaurant_sync_service/handlers/event_handler.py:111 | `error_message or fallback`: a missing or empty message gives the fallback |
| FailureReports.Reports | src/restaurant_sync_service/handlers/event_handler.py:103-112 | one recorded error per failure |
| FailureReports.ReportsAt | src/restaurant_sync_service/handlers/event_handler.py:103-112 | the error recorded i-th is the one `record_sync_error` builds for the i-th failure with the i-th UUID |
| FailureReports.ReportsDescribeFailures | src/restaurant_sync_service/handlers/event_handler.py:103-112 | the i-th recorded error has the i-th failure's platform and details, the i-th fresh id, the clock reading, retry count 0 and no snapshot |
| FailureReports.RecordFailures | src/restaurant_sync_service/handlers/event_handler.py:103-112 | one `record_sync_error` per failed result, in order; the table changes only by the rows those calls saved |
| EventHandlers.ParseEventBridgeEvent | src/restaurant_sync_service/handlers/event_handler.py:29-43 | an event parses exactly when its detail is a dict with string `restaurant_id`, `event_type` and `timestamp`, giving those three |
| EventHandlers.ParseEventDetail | src/restaurant_sync_service/handlers/event_handler.py:29-43 | an event carrying a menu event's detail parses to that event, whatever else it holds |
| EventHandlers.ParseWithoutDetail | src/restaurant_sync_service/handlers/event_handler.py:39-40 | an event without a detail is refused |
| EventHandlers.AnySucceeded | src/restaurant_sync_service/handlers/event_handler.py:114-115 | `len(successes) > 0` holds exactly when some result succeeded |
| EventHandlers.EventHandler.constructor | src/restaurant_sync_service/handlers/event_handler.py:54-69 | the handler holds the given services and adapters |
| EventHandlers.EventHandler.HandleMenuChanged | src/restaurant_sync_service/handlers/event_handler.py:71-115 | one pass with retry per configured platform, each platform's row is its pass's; every failure is recorded in order ("Unknown error" fallback); the answer is whether any platform succeeded |
| EventHandlers.EventHandler.HandleEventBridgeEvent | src/restaurant_sync_service/handlers/event_handler.py:117-152 | 400 "Invalid event format" and nothing changed for an unparsable event; otherwise the restaurant's batch with retry (one pass per adapter, its status row each, failures recorded), answered 200 when some pass succeeded and 500 when none did |
| SyncServices.PassStatus | src/restaurant_sync_service/services/sync_service.py:201-245 | the end-of-pass row: keyed by the pair, COMPLETED or FAILED, with the count and the clock reading |
| SyncServices.Pass | src/restaurant_sync_service/services/sync_service.py:60-139 | every pass names its platform, starts with the fetch, ends with its one status write, and succeeds exactly when it has no message |
| SyncServices.PassSavesOnce | src/restaurant_sync_service/services/sync_service.py:84-139 | every pass writes exactly one status row |
| SyncServices.PassFetchFailure | src/restaurant_sync_service/services/sync_service.py:85-95 | no menu: failure with count 0 and the fetch message, a FAILED row with count 0, and no format or publish call |
| SyncServices.PassFormatFailure | src/restaurant_sync_service/services/sync_service.py:100-110 | no formatted menu: failure counting the source items, a FAILED row with that count, and no publish call |
| SyncServices.PassPublishAttempts | src/restaurant_sync_service/services/sync_service.py:113-120 | one publish without retry or after a first success, two after a first failure with retry, never three; the delay sits between the two |
| SyncServices.PassPublishOutcome | src/restaurant_sync_service/services/sync_service.py:123-139 | success exactly when the first, or with retry the second, attempt is accepted; COMPLETED and no message, or FAILED and the after-all-attempts message; the count is the source count |
| SyncServices.Enumerate | src/restaurant_sync_service/services/sync_service.py:158 | the adapter names in some order, each exactly once |
| SyncServices.SyncService.constructor | src/restaurant_sync_service/services/sync_service.py:43-58 | the service uses the given table and delay (2 by default) and has done nothing yet |
| SyncServices.SyncService.SaveResultStatus | src/restaurant_sync_service/services/sync_service.py:201-245 | the end-of-pass row is written, or the table is unchanged when the write fails |
| SyncServices.SyncService.SyncToPlatform | src/restaurant_sync_service/services/sync_service.py:60-139 | the result and steps are those of `Pass`, whatever the status write reports; the table gains the pass's row or is unchanged |
| SyncServices.SyncService.SyncOne | src/restaurant_sync_service/services/sync_service.py:159-164 | one platform's pass, as planned for that platform |
| SyncServices.SyncService.SyncToMultiplePlatforms | src/restaurant_sync_service/services/sync_service.py:141-168 | one result per configured platform, each the pass for that platform over its own world; each platform's row is its pass's row and no other row changes |
| SyncServices.SyncService.SyncEach | src/restaurant_sync_service/services/sync_service.py:157-168 | the passes in the given order, each stated over its planned outcome |
| SyncServices.SyncService.GetSyncStatus | src/restaurant_sync_service/services/sync_service.py:170-184 | None for an absent pair; a returned status is the stored row |
| SyncServices.SyncService.GetAllStatusesForRestaurant | src/restaurant_sync_service/services/sync_service.py:186-199 | a prefix of a listing of all the restaurant's rows, one per platform |
| Auth.NewValidator | src/restaurant_sync_service/auth/api_key_validator.py:15-27 | an empty list is refused with "At least one API key must be provided"; otherwise the validator holds exactly the listed keys |
| Auth.Validate | src/restaurant_sync_service/auth/api_key_validator.py:29-38 | a key is valid exactly when it is in the configured set |
| Auth.ValidateMeansListed | src/restaurant_sync_service/auth/api_key_validator.py:27-38 | a validator built from a list accepts exactly the keys on the list, any one of them |
| Auth.ValidatorIgnoresOrderAndRepeats | src/restaurant_sync_service/auth/api_key_validator.py:27 | lists with the same keys, in any order or repeated, build the same validator |
| Auth.ValidateIsExact | src/restaurant_sync_service/auth/api_key_validator.py:38 | matching is case-sensitive and does not trim |
| Auth.GetApiKeyFromHeader | src/restaurant_sync_service/auth/api_dependencies.py:13-36 | 401 "Missing API key" for a missing or empty header whatever the validator; 401 "Invalid API key" for a rejected key; otherwise the key unchanged, any non-empty key when there is no validator |
| AdminApi.Refusal | src/restaurant_sync_service/handlers/api_handler.py:90-92 | a refused key becomes a raised error with the check's code and detail |
| AdminApi.PyStr | src/restaurant_sync_service/handlers/api_handler.py:340 | a missing message prints as "None" |
| AdminApi.FullRefreshStatus | src/restaurant_sync_service/handlers/api_handler.py:148-176 | 207 exactly when the batch has both a success and a failure, 200 otherwise |
| AdminApi.EmptyRefreshSucceeds | src/restaurant_sync_service/handlers/api_handler.py:149 | an empty batch is answered with 200 |
| AdminApi.FindError | src/restaurant_sync_service/handlers/api_handler.py:298-302 | the first error on the page with the id, or None exactly when no error on the page has it |
| AdminApi.FirstWithId | src/restaurant_sync_service/handlers/api_handler.py:298-302 | the result of the search loop: the first error with the id, or None when none has it |
| AdminApi.AdminApp.constructor | src/restaurant_sync_service/handlers/api_handler.py:75-79 | the app holds the given services, adapters and validator |
| AdminApi.AdminApp.Authenticate | src/restaurant_sync_service/handlers/api_handler.py:90-92 | a request passes exactly when its non-empty key is configured, and is returned as given; every refusal is 401 |
| AdminApi.AdminApp.GetSyncStatus | src/restaurant_sync_service/handlers/api_handler.py:94-112 | refused without a valid key; otherwise 200 and a prefix of a listing of all the restaurant's rows, one per platform |
| AdminApi.AdminApp.TriggerFullRefresh | src/restaurant_sync_service/handlers/api_handler.py:119-176 | refused without a valid key and nothing changed; otherwise one pass per platform, each platform's row its pass's and no other row changed, one recorded error per failure ("Manual sync failed" fallback), success exactly when all succeeded, and 207 for a mixed batch |
| AdminApi.AdminApp.TriggerPlatformSync | src/restaurant_sync_service/handlers/api_handler.py:183-237 | 404 and no sync for an unconfigured platform; a failed pass is recorded and raised as 500 with the result; success is 200 with the item count |
| AdminApi.AdminApp.GetErrors | src/restaurant_sync_service/handlers/api_handler.py:244-265 | refused without a valid key; a `limit` below 1 escapes as the client's validation error (a 500); otherwise 200 and the platform filter of a prefix of the min(limit, their number) stored errors the query matched (default limit 50) |
| AdminApi.AdminApp.FindRetryTarget | src/restaurant_sync_service/handlers/api_handler.py:287-302 | the page is a prefix of the min(100, their number) stored errors of restaurant "" the query matched; the target is the first error on it with the id, and None exactly when none on it has it |
| AdminApi.AdminApp.RetryFound | src/restaurant_sync_service/handlers/api_handler.py:316-341 | one pass with retry for the error's restaurant and platform, then the count increment whatever the outcome, and the success or "Retry failed" message |
| AdminApi.AdminApp.RetryFoundAsWritten | src/restaurant_sync_service/handlers/api_handler.py:316-328 | as written: the pass runs and changes at most its status row, then the increment call raises `TypeError` and the route answers 500; the retry count is never written |
| AdminApi.AdminApp.RetryError | src/restaurant_sync_service/handlers/api_handler.py:272-341 | the target is the first error with the id on the page of restaurant "" errors; 404 when there is none or its platform is not configured, with nothing changed; otherwise the retry, the count increment and the message |
| AdminApi.AdminApp.RetryErrorAsWritten | src/restaurant_sync_service/handlers/api_handler.py:272-341 | as written: the same search and 404s; for a found error with a configured platform, the pass, then the uncaught `TypeError` (a 500) with the error table unchanged |
| AdminApi.CreateApp | src/restaurant_sync_service/handlers/api_handler.py:52-79 | the app over the given services and adapters; an empty key list is refused as the validator refuses it |
| LambdaDependencies.ParseInt | src/lambda_dependencies.py:142 | `int()` accepts only text with something left after stripping |
| LambdaDependencies.ParseIntText | src/lambda_dependencies.py:142 | `int(str(n)) == n` |
| LambdaDependencies.StrippedKeys | src/lambda_dependencies.py:221 | the kept keys are no more than the pieces |
| LambdaDependencies.StrippedKeysTrimmed | src/lambda_dependencies.py:221 | no kept key is empty or has whitespace at an end |
| LambdaDependencies.StrippedKeysMembers | src/lambda_dependencies.py:221 | the kept keys are exactly the non-empty stripped pieces |
| LambdaDependencies.AdminKeys | src/lambda_dependencies.py:220-225 | the admin key list is never empty |
| LambdaDependencies.AdminKeysArePieces | src/lambda_dependencies.py:220-221 | every configured key is a trimmed, non-empty, comma-free piece of `ADMIN_API_KEY` |
| LambdaDependencies.NoAdminKeyMeansDevelopmentKey | src/lambda_dependencies.py:223-225 | without `ADMIN_API_KEY` the only key is the development key |
| LambdaDependencies.AdminKeysMakeValidator | src/lambda_dependencies.py:220-232 | the admin keys always make a validator, so building the app never fails on them |
| LambdaDependencies.DoorDashEnabledExamples | src/lambda_dependencies.py:85 | sync is enabled when the setting is absent or "TRUE", disabled for "false" |
| LambdaDependencies.ConfiguredAdaptersShape | src/lambda_dependencies.py:82-107 | "doordash" is configured exactly when enabled with both credentials set, and is then that adapter; at most one platform; the environment defaults to the sandbox |
| LambdaDependencies.RetryDelayDefault | src/lambda_dependencies.py:142 | the retry delay is 2 without a setting and the setting's number otherwise |
| LambdaDependencies.ImportFrom | src/lambda_dependencies.py:17 | an import succeeds exactly when the module binds the name, and otherwise raises the `ImportError` naming both |
| LambdaDependencies.EventHandlerImportAsWritten | src/lambda_dependencies.py:17 | as written: the event handler's module binds no `MenuEventHandler`, so importing it fails with `ImportError` |
| LambdaDependencies.EventHandlerImport | src/restaurant_sync_service/handlers/event_handler.py:46 | the class the module does define, `EventHandler`, imports |
| LambdaDependencies.Container.constructor | src/lambda_dependencies.py:29-35 | a cold start: nothing cached |
| LambdaDependencies.Container.GetPlatformAdapters | src/lambda_dependencies.py:71-107 | the cached map once there is one, otherwise the map configured from the environment, which is then cached |
| LambdaDependencies.Container.GetSyncService | src/lambda_dependencies.py:110-150 | the cached service; otherwise the configuration error, the `int()` error, or a new cached service over the status table with the configured delay; it fails only in those two cases |
| LambdaDependencies.Container.GetErrorService | src/lambda_dependencies.py:153-176 | the cached service, or a new one over the error table, which is then cached |
| LambdaDependencies.Container.GetEventHandler | src/lambda_dependencies.py:179-201 | the cached handler, or one built from the cached or new services and adapters; without cached services it fails exactly when the menu service is not configured or the delay is not an integer, with that error's message |
| LambdaDependencies.Container.GetFastapiApp | src/lambda_dependencies.py:204-235 | the cached app, or one built with the admin keys of the environment; without cached services it fails exactly when the menu service is not configured or the delay is not an integer, with that error's message |
| LambdaEntry.InvalidFields | src/lambda_handler.py:114-118 | exactly the event fields whose value is not a string |
| LambdaEntry.Decide | src/lambda_handler.py:99-118 | unsupported exactly when source or detail type differs from the menu service's, with the message naming both |
| LambdaEntry.DispatchIffTextFields | src/lambda_handler.py:113-118 | a supported event is dispatched exactly when its detail is a dict, or absent, whose three fields are strings or absent |
| LambdaEntry.MissingFieldsDefault | src/lambda_handler.py:113-118 | missing fields take "", "menu.updated" and "" |
| LambdaEntry.DecideAgreesWithParse | src/lambda_handler.py:113-118 | where the handler's own parser accepts an event, the entry point reads the same menu event |
| LambdaEntry.NonDictDetailRefused | src/lambda_handler.py:113-115 | a detail that is not a dict is refused with the type named |
| LambdaEntry.UnsupportedNamesBoth | src/lambda_handler.py:105-110 | with text source and detail type, the refusal is "Unsupported event type: source/type" |
| LambdaEntry.AtMostOnePlatform | src/lambda_dependencies.py:84-95 | the container configures at most one platform |
| LambdaEntry.RunMenuEvent | src/lambda_handler.py:121-139 | the handler syncs the restaurant with retry (`MenuEventRan`: the DoorDash pass when configured, its status row, no other row) and records each failure; 200 when the pass succeeded, 500 otherwise |
| LambdaEntry.OnePlatformBatch | src/lambda_dependencies.py:84-95 | with at most the DoorDash adapter configured, a batch has the DoorDash result alone or nothing |
| LambdaEntry.DispatchMenuEvent | src/lambda_handler.py:120-146 | 500 and the tables untouched when no handler can be built ("Error processing event" with the configuration message); otherwise the run `MenuEventRan` describes and its 200 or 500 |
| LambdaEntry.ObtainEventHandler | src/lambda_handler.py:121 | the handler the dispatch runs is the container's, over its tables; it is missing exactly when building failed |
| LambdaEntry.HandleEventBridgeEvent | src/lambda_handler.py:88-146 | 400 for an unsupported event and 500 for an unreadable detail, both with nothing changed and no handler built; any other event is dispatched, with the run `MenuEventRan` describes |
| LambdaEntry.LambdaHandler | src/lambda_handler.py:50-85 | with the request id read as `aws_request_id`: a context without it raises before anything is handled, the runtime's context never does, and otherwise the event is routed as `Route` states |
| LambdaEntry.Route | src/lambda_handler.py:67-85 | EventBridge-shaped events are answered directly (unsupported 400, refused or unbuildable 500, else the run `MenuEventRan` describes with 200 or 500); any other event gets the ASGI adapter's answer, and its failure becomes 500 "Internal server error" |
| LambdaEntry.LambdaHandlerAsWritten | src/lambda_handler.py:65 | as written: a context without `request_id` raises `AttributeError` before routing and changes nothing, so every invocation with the Lambda runtime's context fails |
| LambdaEntry.RuntimeContextAttributes | src/lambda_handler.py:65 | the Lambda runtime's context has `aws_request_id` and no `request_id` |

## Left out

- Concurrency: `asyncio.gather` in a batch is a sequential loop in some order of the adapter map (`Enumerate`). The passes are independent, so only the order of results is open. The order `gather` keeps is not stated.
- `asyncio.sleep`: the retry delay is a `Sleep` step in the pass log.
- The menu service client is HTTP. It is not part of this model beyond its answer: a `PassWorld` holds the items and categories, or None when either fetch failed.
- The network side of `publish_menu` (httpx, OAuth): the two HTTP answers are an `Exchange` parameter, and a raised transport error is a `TransportFailure` answer.
- `datetime.now` and `uuid4` are parameters. Ids are constrained only to the `err_` + 12 hex shape.
- DynamoDB specifics:
  - `ClientError` is a nondeterministic failure of the call.
  - Index names are left out.
  - `ScanIndexForward=False` (newest first) is left out, so listed errors come in an unspecified order.
  - `update_item` turns an absent key into a new item; the model leaves the table unchanged.
  - `get_dynamodb_resource` is left out.
- SyncRepositories.FirstPage: where a page ends is left open, because the 1 MB size of the items is not computed. So no listing promises every matching row.
- SyncRepositories.StatusRepository.ListStatusesForRestaurant: promises a prefix of the restaurant's rows, not all of them, because only one page is read.
- SyncRepositories.ErrorRepository.ListErrorsForRestaurant: promises a prefix of the min(limit, n) matched errors, not all of them, because only one page is read.
- SyncRepositories.OperationRepository.ListOperationsForRestaurant: promises a prefix of the restaurant's operations, not all of them, because only one page is read.
- SyncServices.SyncService.GetAllStatusesForRestaurant: the prefix of `ListStatusesForRestaurant`, for the same reason.
- ErrorServices.ErrorService.GetErrorsForRestaurant: the page is a prefix of what the query matched, for the same reason; so is the page of `GetErrorsForRestaurantAsWritten`.
- AdminApi.AdminApp.GetSyncStatus: answers the prefix of `GetAllStatusesForRestaurant`.
- AdminApi.AdminApp.GetErrors: answers the filter of a prefix of the matched errors.
- AdminApi.AdminApp.FindRetryTarget: an error past the end of the page is not found, so the search may miss a stored error with the id.
- AdminApi.AdminApp.RetryError: inherits that search.
- The `restaurant_id-index` secondary index is eventually consistent. The model reads the current rows.
- ErrorServices.ErrorService.GetError: the corrected call takes `created_at` as well, because the repository needs the whole key. The as-written call is `GetErrorAsWritten`.
- ErrorServices.ErrorService.IncrementRetryCount: the corrected call takes `created_at` as well, as the admin handler calls it. The as-written call is `IncrementRetryCountAsWritten`.
- DoorDash.FormatMenu: its exception path (`return None` on malformed input) cannot arise over typed items, so the model always yields a document.
- DoorDash.PriceCents: prices are exact decimals. The 28-significant-digit context of `Decimal` arithmetic is not modelled, so `price * 100` is not rounded for prices of more than 26 significant digits. Scientific-notation text from `str()` of very small or very large decimals is not modelled.
- Decimals.ParseToString: covers the plain-digit text the model prints, not every text `Decimal()` accepts.
- Text.Lower: ASCII case folding only. Comparing against "true" gives the same answer as Python's full Unicode `lower()`.
- LambdaDependencies.ParseInt: underscores between digits and non-ASCII digits, both accepted by `int()`, are not modelled.
- LambdaEntry.ShowJson: lists and dicts in the unsupported-event message are shown by placeholders, not by their Python `repr`.
- LambdaEntry.ValidationMessage: gives the error count and one line per field. The `input_value` and documentation-URL suffixes of pydantic's text are not modelled.
- Pydantic coercions other than these are not modelled: numeric strings, and string subclasses.
- FastAPI, pydantic and Mangum plumbing:
  - Routes are methods returning a status code with a body, or a raised error.
  - JSON serialisation and `response_model` filtering are left out.
  - The body of the non-EventBridge path is the `asgi` parameter.
  - The `/health` route is left out.
  - `create_app`'s title, description and version metadata are left out.
- Exceptions raised inside `handle_menu_changed` (rather than reported by a result) are not modelled. The 500 "Error processing event" branch is reached by the `Refused` outcomes of `Decide` (a detail that is not a dict, a field that is not a string) and by the factory's errors.
- Module import side effects (`lambda_handler.py:22-33`), `initialize_lambda_environment`, logging, the observability package and `main.py` are left out. The one logged value read outside a `try`, `context.request_id`, is modelled (`LambdaHandlerAsWritten`).
- LambdaEntry.LambdaHandler: the context is reduced to its type name and attribute names; the other attributes' values are not modelled.
- Environment is read once per factory call from the container's `env`. A change to the environment between calls is not modelled.
- The factories build the `EventHandler` class that `event_handler.py:46` defines. The `MenuEventHandler` import of `lambda_dependencies.py:17` is modelled as written by `EventHandlerImportAsWritten` only; the module load that it stops is not modelled.
- `datetime.fromisoformat` parsing is not modelled: timestamps are carried by their isoformat text.
- SyncModels.RequiredTime: accepts every string. The `ValueError` that `fromisoformat` raises on non-ISO text (`sync_models.py:85,153`), and that escapes `get_status` and the other readers, is not modelled.
- SyncModels.StatusItemRoundTrip: gives back every stored timestamp text. Python gives back only text already in the form `isoformat` prints: "…Z" comes back as "…+00:00", and non-ISO text raises on reading.
- SyncModels.ErrorItemRoundTrip: the same as for the status item, for `created_at`.
- AdminApi.AdminApp.RetryFound: the corrected retry, which passes the error's whole key to the increment. The as-written `TypeError` and its 500 after the pass are `RetryFoundAsWritten` and `RetryErrorAsWritten`.
- LambdaDependencies.IntErrorMessage: uses `Repr`, which covers the choice of quotes and the escaping of backslashes and quotes. Control characters, which `repr` escapes too, are not modelled.
- `PlatformAdapter` is a datatype with two function-valued fields rather than an abstract class. Supplying both operations is what constructing a value requires.

## Findings

| source | as written | input that shows it | evidently intended | confidence | as-written member | corrected member |
|---|---|---|---|---|---|---|
| src/restaurant_sync_service/services/error_service.py:97-100 | `get_errors_for_restaurant` passes its `limit` on unchanged, so a call without one queries with `Limit=None`; the client's parameter validation refuses that with an error that is not a `ClientError` and escapes the repository | `get_errors_for_restaurant("rest_123")` | an absent limit means the repository's 50, as the service's test expects | not executed | ErrorServices.ErrorService.GetErrorsForRestaurantAsWritten | ErrorServices.ErrorService.GetErrorsForRestaurant |
| src/lambda_handler.py:65 | `lambda_handler` logs `context.request_id` before its `try`; the Lambda runtime's context has `aws_request_id` and no `request_id`, so the f-string raises `AttributeError` | any invocation with the runtime's context | the request id is read as `context.aws_request_id` | not executed | LambdaEntry.LambdaHandlerAsWritten | LambdaEntry.LambdaHandler |
| src/restaurant_sync_service/services/error_service.py:79 | `get_error` hands the repository's `get_error(error_id, created_at)` the id alone, which raises `TypeError` | `get_error("err_123")` | the service takes `created_at` and passes both, as its test calls it (`tests/unit/test_error_service.py:154`) | not executed | ErrorServices.ErrorService.GetErrorAsWritten | ErrorServices.ErrorService.GetError |
| src/restaurant_sync_service/services/error_service.py:108-126 | `increment_retry_count` has no `created_at`, and reads with `get_error(error_id)`, which raises `TypeError` before the update (itself missing an argument) | `increment_retry_count("err_123")` | the error's whole key is read and updated | not executed | ErrorServices.ErrorService.IncrementRetryCountAsWritten | ErrorServices.ErrorService.IncrementRetryCount |
| src/restaurant_sync_service/handlers/api_handler.py:325-328 | the retry route passes `created_at=` to the one-parameter `increment_retry_count`, which raises `TypeError` after the pass; the route answers 500 and the count is not written | a retry of a found error whose platform is configured | the error's count goes up by one and the route answers 200 with the message | not executed | AdminApi.AdminApp.RetryErrorAsWritten | AdminApi.AdminApp.RetryError |
| src/lambda_dependencies.py:17 | imports `MenuEventHandler`, which `event_handler.py` does not define (it defines `EventHandler` at line 46); `lambda_handler.py:16` imports this module when it is loaded, so every cold start raises `ImportError` | any invocation of a new container | the import and the factories use `EventHandler` | not executed | LambdaDependencies.EventHandlerImportAsWritten | LambdaDependencies.EventHandlerImport |
