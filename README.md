# Printer supplies API: a Dafny model of its handlers

This project models the core of the printer supplies API, an HTTP service that
keeps a catalog of toners, drums and printers and a ledger of stock movements.
It proves properties of the model.

The database is an in-memory store, the class `Database.Store`. It holds one
map per table, from a row's id to the row, plus a flag `online`. When the flag
is false, every statement fails. Each handler is modelled as follows:

- A handler that writes becomes a method. It checks and updates those maps,
  then answers with a status or a `Result`.
- A handler that only reads becomes a function that reads the store.

Each write method states the following:

- its whole new state;
- which tables it leaves alone;
- that it keeps every table keyed by its rows' ids (`Store.Valid`).

The lemmas relate the read views to one another:

- each list has as many rows as its count;
- the toner and drum movement counts add up to the total;
- a printer whose references dangle is counted but cannot be fetched.

Other parts are modelled as pure functions:

- the validators;
- the error-to-HTTP mapping;
- the toner model's validation rules;
- the stock domain's `TonerName` smart constructor;
- the SQLite repository's error classification;
- the inbound HTTP adapter's conversions.

The SQLite repository is a class of its own. Its transaction is a pending copy
of the table, written back only on commit.

Fresh ids, the clock and the driver's answers are parameters:

- a fresh id is `freshId`, and the clock reading is `now`;
- the driver's answers are `beginError`, `insert`, `delete` and `commitError`.

A panic in the source (an `unwrap` on a failed lookup, an unparsable id, or a
stock sum outside `i32`) becomes a precondition. Lists are sets, because the
SQL has no `ORDER BY`.

Where the handlers and their model structs disagree, the model follows the
handlers:

- The movement rows are `{id, printer_id, toner_id?, drum_id?, quantity,
  created_at}`.
- Every column of a printer update is optional.
- The `ApiError` enum also carries `EmptyName`, `NameTooShort`, `NameTooLong`
  and `NotModified`. The handlers use these variants, but `IntoResponse` has
  no mapping for them, so it requires one of the five declared variants.

The domain's `Toner::new`/`id()`/`name()` and `CreateTonerRequest::new`/`name()`
are the constructors and destructors of the datatypes `TonerDomain.Toner` and
`TonerDomain.CreateTonerRequest`. The definitions of `DeleteTonerRequest`,
`DeleteTonerError`, `TonerIdEmptyError` and the inbound `responses` module are
not part of this model. Their shapes are taken from how `sqlite.rs`,
`delete_toner.rs` and `create_toner.rs` use them.

## Model

| member | source | states |
|---|---|---|
| Common.ParseUuid | src/handlers/printer.rs:250-252 | a text gives an id exactly when it is a well-formed UUID, and the id is that text |
| Common.ParseOptionalUuid | src/handlers/printer.rs:308-310 | an optional text gives an id exactly when it is present and is a well-formed UUID, and the id is that text; otherwise the field counts as not supplied |
| ApiErrors.IntoResponse | src/errors/api_error.rs:31-80 | 500 exactly for `DatabaseError`/`Unknown`, 400 for `ValidationError`, 404 for `IdNotFound`, 409 for `AlreadyExists`; each code string exactly for its variant; each variant's fixed message; details always present, the validator's text for a validation error |
| ApiErrors.ErrorCodeIdentifiesVariant | src/errors/api_error.rs:33-76 | the five error codes are pairwise distinct |
| Tables.PatchSupply | src/handlers/supplies/toner.rs:270-306 | a supplied name, stock or price replaces the column, an absent one keeps it, the id never changes; no field supplied means the row is unchanged |
| Tables.AddToStock | src/handlers/movement.rs:213-218 | `stock = stock + q` on one row: a NULL stock stays NULL, otherwise the new stock is the old plus `q`; name, price and every other row unchanged; an unknown id changes nothing |
| TonerModel.NewToner | src/models/supplies/toner.rs:28-37 | the fresh id, and the name, stock and price verbatim |
| TonerModel.DefaultToner | src/models/supplies/toner.rs:17-26 | a fresh id, name "Unknown", no stock, no price |
| TonerModel.NameRule | src/models/supplies/toner.rs:41 | passes exactly when the name has at least 3 characters, otherwise the single name error with its message |
| TonerModel.StockRule | src/models/supplies/toner.rs:43 | passes exactly when the stock is absent or at least 0 |
| TonerModel.ValidateCreateTonerRequest | src/models/supplies/toner.rs:39-46 | valid exactly when the name has at least 3 characters and the stock is absent or non-negative; each rule's error appears exactly when that rule is broken |
| TonerModel.ValidateUpdateTonerRequest | src/models/supplies/toner.rs:48-56 | the same rules on the optional name and stock, absent fields valid |
| TonerModel.PriceIsUnconstrained | src/models/supplies/toner.rs:45-55 | changing the price never changes either validation result |
| TonerModel.EmptyNameIsRejected | tests/endpoints.rs:44-63 | an empty name fails validation and is answered with 400 |
| Existence.TonerExists | src/validations/existence.rs:7-24 | Ok exactly when online and the id is a toner's, `IdNotFound` exactly when online and it is not, `DatabaseError` exactly when offline; reads only |
| Existence.DrumExists | src/validations/existence.rs:26-43 | the same over drums |
| Existence.BrandExists | src/validations/existence.rs:45-62 | the same over brands |
| Existence.PrinterExists | src/validations/existence.rs:64-81 | the same over printers |
| Existence.MovementExists | src/validations/existence.rs:83-100 | the same over movements |
| Uniqueness.IsTonerUnique | src/validations/uniqueness.rs:6-23 | `AlreadyExists` exactly when online and some toner has exactly that name, Ok exactly when online and none has, `DatabaseError` exactly when offline |
| Uniqueness.IsDrumUnique | src/validations/uniqueness.rs:25-42 | the same over drums |
| Uniqueness.IsBrandUnique | src/validations/uniqueness.rs:44-61 | the same over brands |
| Uniqueness.IsPrinterUnique | src/validations/uniqueness.rs:63-80 | the same over printers |
| Uniqueness.OwnNameIsNotUnique | src/validations/uniqueness.rs:7 | the check is not scoped by id: a toner's own name is reported taken |
| MovementHandlers.CountAllMovements | src/handlers/movement.rs:22-41 | 200 with the number of ledger rows exactly when online and that number fits the `::int` cast, else 500 with its message |
| MovementHandlers.CountTonerMovements | src/handlers/movement.rs:43-62 | 200 with the number of rows whose toner is set exactly when online and that number fits the `::int` cast, else 500 with its message |
| MovementHandlers.CountDrumMovements | src/handlers/movement.rs:64-83 | 200 with the number of rows whose drum is set exactly when online and that number fits the `::int` cast, else 500 with its message |
| MovementHandlers.SearchMovement | src/handlers/movement.rs:85-107 | 200 with the row exactly when its id is present, 404 exactly when absent, 500 when offline, `null` body unless 200 |
| MovementHandlers.ShowAllMovements | src/handlers/movement.rs:109-127 | 200 with exactly the ledger's rows |
| MovementHandlers.ShowTonerMovements | src/handlers/movement.rs:129-147 | 200 with exactly the rows whose toner is set |
| MovementHandlers.ShowDrumMovements | src/handlers/movement.rs:149-167 | 200 with exactly the rows whose drum is set; its failure message names toner movements |
| MovementHandlers.ListSizeIsCount | src/handlers/movement.rs:22-167 | each filtered list has as many rows as the matching count |
| MovementHandlers.MovementCountsAddUp | src/handlers/movement.rs:22-83 | when every row names exactly one item and the total fits `i32`, all three counts succeed and toner count plus drum count equals the total count |
| MovementHandlers.CreateTonerMovement | src/handlers/movement.rs:169-233 | no toner id: 500; zero quantity: 400; otherwise 201 with one row appended (toner set, drum NULL, the request quantity, a printer holding that toner) and the quantity added to that toner's stock; nothing written unless 201; rows naming one item stay so |
| MovementHandlers.CreateDrumMovement | src/handlers/movement.rs:235-299 | the drum mirror, except that a missing drum id answers 404 |
| MovementHandlers.Retarget | src/handlers/movement.rs:324-336 | printer, toner, drum and quantity overwritten; id and creation time kept |
| MovementHandlers.UpdateMovement | src/handlers/movement.rs:301-359 | 400 when neither item is given, before any lookup; 404 for an unknown id; otherwise exactly that row is overwritten with no quantity check and 200; toners and drums never change |
| MovementHandlers.DeleteMovement | src/handlers/movement.rs:361-395 | 404 and no change for an unknown id; otherwise exactly that row removed and 200; stock never changes; rows naming one item stay so |
| MovementHandlers.UpdateCanBreakCountPartition | src/handlers/movement.rs:324-336 | an update that sets both items makes toner count plus drum count exceed the total |
| TonerHandlers.Utf8Len | src/handlers/supplies/toner.rs:244-248 | the byte length is between the character count and four times it, and 0 exactly for the empty name |
| TonerHandlers.NameLengthError | src/handlers/supplies/toner.rs:239-251 | `EmptyName` exactly for "", `NameTooShort` exactly for a non-empty name under 4 bytes, `NameTooLong` exactly over 20 bytes, none exactly for 4 to 20 bytes |
| TonerHandlers.CountToners | src/handlers/supplies/toner.rs:35-48 | 200 with the number of toners when online, else `DatabaseError` |
| TonerHandlers.SearchToner | src/handlers/supplies/toner.rs:69-92 | the toner with that id exactly when present, `IdNotFound` exactly when absent |
| TonerHandlers.ShowToners | src/handlers/supplies/toner.rs:110-123 | 200 with exactly the toners |
| TonerHandlers.ShowTonersMatchesCount | src/handlers/supplies/toner.rs:35-123 | the list has as many toners as the count |
| TonerHandlers.CreateToner | src/handlers/supplies/toner.rs:144-189 | a failed validation gives `ValidationError` with its errors; a taken name gives `AlreadyExists`; otherwise 201 with the fresh id and exactly one new toner built by `NewToner`; nothing written on error |
| TonerHandlers.UpdateToner | src/handlers/supplies/toner.rs:213-310 | `Unknown` when offline; `IdNotFound` for an unknown id; then the name checks in order; then `AlreadyExists` exactly when another toner holds the name; otherwise 200 and only that row patched with the supplied fields, even when none is supplied; nothing written on error |
| TonerHandlers.DeleteToner | src/handlers/supplies/toner.rs:330-362 | `Unknown` when offline, `IdNotFound` for an unknown id, otherwise exactly that toner removed and 200 |
| TonerHandlers.OwnNameIsNoConflict | src/handlers/supplies/toner.rs:254 | the update's duplicate check skips the toner itself, so resubmitting its own name is no conflict, although the unscoped check would report it taken |
| TonerHandlers.CreateAndUpdateNameRulesDiffer | src/handlers/supplies/toner.rs:244 | "abc" passes the create rule (3 characters) but the update handler refuses it as too short (under 4 bytes) |
| DrumHandlers.CountDrums | src/handlers/supplies/drum.rs:36-49 | 200 with the number of drums when online, else `DatabaseError` |
| DrumHandlers.SearchDrum | src/handlers/supplies/drum.rs:70-93 | the drum with that id exactly when present, `IdNotFound` exactly when absent |
| DrumHandlers.ShowDrums | src/handlers/supplies/drum.rs:111-122 | 200 with exactly the drums |
| DrumHandlers.ShowDrumsMatchesCount | src/handlers/supplies/drum.rs:39-112 | the list has as many drums as the count |
| DrumHandlers.CreateDrum | src/handlers/supplies/drum.rs:143-167 | a request the validation rules refuse gives `ValidationError` with their errors before any database access; then `DatabaseError` when offline; `AlreadyExists` exactly when online and some drum has that name; otherwise 201 and exactly one new drum with the fresh id and the request's fields; nothing written on error |
| DrumHandlers.UpdateDrum | src/handlers/supplies/drum.rs:191-246 | a refused request gives `ValidationError` before the existence check, so before any 404; then `DatabaseError` when offline; `IdNotFound` for an unknown id; otherwise 200 and only that row patched with the supplied fields, with no duplicate check, even when none is supplied |
| DrumHandlers.DeleteDrum | src/handlers/supplies/drum.rs:266-285 | `IdNotFound` for an unknown id, otherwise exactly that drum removed and 200 |
| DrumHandlers.UpdateCanDuplicateName | src/handlers/supplies/drum.rs:204-216 | a drum can be renamed to another drum's name, leaving two drums that share it |
| PrinterHandlers.Details | src/handlers/printer.rs:109-131 | the joined row copies the printer's id, name and model and the brand, toner and drum rows it names |
| PrinterHandlers.Joined | src/handlers/printer.rs:94-97 | the inner join keeps exactly the printers whose brand, toner and drum rows all exist |
| PrinterHandlers.CountPrinters | src/handlers/printer.rs:40-53 | 200 with the number of printer rows, resolvable or not |
| PrinterHandlers.SearchPrinter | src/handlers/printer.rs:74-141 | the joined printer exactly when it exists and its three references resolve, `IdNotFound` otherwise |
| PrinterHandlers.ShowPrinters | src/handlers/printer.rs:159-218 | 200 with exactly the joined rows of the printers whose references resolve |
| PrinterHandlers.ShowPrintersAgreesWithCount | src/handlers/printer.rs:43-191 | the list never holds more printers than the count, and exactly as many when all references resolve |
| PrinterHandlers.DanglingPrinterIsNotFound | src/handlers/printer.rs:94-138 | a printer whose toner is gone is counted but fetching it gives `IdNotFound` |
| PrinterHandlers.CreatePrinter | src/handlers/printer.rs:239-272 | a refused request gives `ValidationError` before any database access; then `DatabaseError` when offline; `AlreadyExists` exactly when the name is taken; otherwise 201 and exactly one new printer with the fresh id and the given name, model, brand, toner and drum; nothing written on error |
| PrinterHandlers.PatchPrinter | src/handlers/printer.rs:312-382 | a supplied name or model replaces the column, and a reference replaces its column only when it parses; an update that changes nothing leaves the row as it was |
| PrinterHandlers.UpdatePrinter | src/handlers/printer.rs:297-394 | a refused request gives `ValidationError` before the existence check; then `DatabaseError` when offline; `IdNotFound` for an unknown id; `NotModified` and no write exactly when no column is effectively supplied; otherwise 200 and only that row patched |
| PrinterHandlers.DeletePrinter | src/handlers/printer.rs:414-433 | `IdNotFound` for an unknown id, otherwise exactly that printer removed and 200 |
| PrinterHandlers.MalformedReferenceIsIgnored | src/handlers/printer.rs:308-310 | a reference that is not a UUID counts as not supplied |
| TonerDomain.Trim | src/domain/src/stock/models/toner.rs:35 | `str::trim`: no whitespace at either end of the result |
| TonerDomain.TrimStart | src/domain/src/stock/models/toner.rs:35 | drops exactly the leading whitespace: a suffix, all whitespace before it, no whitespace at its start |
| TonerDomain.TrimEnd | src/domain/src/stock/models/toner.rs:35 | drops exactly the trailing whitespace |
| TonerDomain.TrimShape | src/domain/src/stock/models/toner.rs:35-36 | the trim is a slice of the input with only whitespace around it, has no whitespace at either end, and is empty exactly when the input is all whitespace |
| TonerDomain.TrimOfTrimmed | src/domain/src/stock/models/toner.rs:35 | a string without whitespace at its ends is its own trim |
| TonerDomain.TrimIdempotent | src/domain/src/stock/models/toner.rs:35 | trimming twice is trimming once |
| TonerDomain.NewTonerName | src/domain/src/stock/models/toner.rs:33-42 | fails exactly when the input is empty or all whitespace; otherwise holds the trimmed text, which is non-empty |
| TonerDomain.Display | src/domain/src/stock/models/toner.rs:44-48 | the stored text: non-empty, with no whitespace at either end |
| TonerDomain.DisplayRoundTrip | src/domain/src/stock/models/toner.rs:33-48 | building a name from its displayed text gives the same name back |
| TonerDomain.NewTonerNameIdempotent | src/domain/src/stock/models/toner.rs:35-39 | passing an accepted name through the constructor again changes nothing |
| SqliteAdapter.IsUniqueConstraintViolation | src/adapters/outbound/src/sqlite.rs:113-126 | true exactly for a database error with code "2067" |
| SqliteAdapter.Exists | src/adapters/outbound/src/sqlite.rs:114-138 | true exactly for a database error with code "409" |
| SqliteAdapter.ClassificationsAreDisjoint | src/adapters/outbound/src/sqlite.rs:116-138 | no error is both; other failures and codeless database errors are neither |
| SqliteAdapter.SaveToner | src/adapters/outbound/src/sqlite.rs:30-45 | a failed INSERT passes on its error; otherwise the new id and the table with exactly one more row (that id, the name) |
| SqliteAdapter.RemoveToner | src/adapters/outbound/src/sqlite.rs:47-56 | a failed DELETE passes on its error; otherwise the table without that id and the requested id back, whether or not a row was removed |
| SqliteAdapter.Sqlite.CreateToner | src/adapters/outbound/src/sqlite.rs:60-84 | a unique violation gives `Duplicate` with the request's name; any other failure of begin, insert or commit gives `Unknown`; success gives the fresh id with the name and commits exactly that row; a failure leaves the table as it was |
| SqliteAdapter.Sqlite.DeleteTonerAsWritten | src/adapters/outbound/src/sqlite.rs:86-110 | a "409" failure gives `NotFound`, other failures `Unknown`; a DELETE that runs gives `Ok(id)` and commits the removal, whether or not the toner existed |
| SqliteAdapter.AbsentIdIsDeletedAsWritten | src/adapters/outbound/src/sqlite.rs:93-109 | deleting an absent id answers `Ok` with that id |
| SqliteAdapter.Sqlite.DeleteToner | src/adapters/outbound/src/sqlite.rs:86-110 | after a DELETE that runs, `NotFound` exactly when the id names no toner; `Ok(id)` only when it did and the commit succeeded; a failed DELETE is `Unknown` whatever its code, since the "409" classification never matches an SQLite error |
| SqliteAdapter.AbsentIdIsNotFound | src/adapters/outbound/src/sqlite.rs:93-109 | with the row count checked, deleting an absent id answers `NotFound` |
| HttpCreateToner.TryIntoDomain | src/adapters/inbound/src/http/handlers/create_toner.rs:66-71 | refused exactly when the name is empty or all whitespace, otherwise the request holds the trimmed name |
| HttpCreateToner.FromParseError | src/adapters/inbound/src/http/handlers/create_toner.rs:27-35 | `UnprocessableEntity("Toner name cannot be empty")` |
| HttpCreateToner.FromCreateTonerError | src/adapters/inbound/src/http/handlers/create_toner.rs:13-25 | `Duplicate` exactly gives `UnprocessableEntity` naming the toner; `Unknown` exactly gives `InternalServerError("Internal server error")` |
| HttpCreateToner.ResponseData | src/adapters/inbound/src/http/handlers/create_toner.rs:47-53 | the data's text parses back to the toner's id |
| HttpCreateToner.CreateTonerHandler | src/adapters/inbound/src/http/handlers/create_toner.rs:73-84 | an all-whitespace name is refused with the empty-name message; otherwise 201 exactly when the service succeeds, carrying the toner's id, and the service's error mapped otherwise |
| HttpCreateToner.EmptyNameSkipsService | src/adapters/inbound/src/http/handlers/create_toner.rs:77 | for a refused name the answer does not depend on the service |
| HttpDeleteToner.TryIntoDomain | src/adapters/inbound/src/http/handlers/delete_toner.rs:76-81 | never refuses a well-formed id; the request holds that id |
| HttpDeleteToner.FromParseError | src/adapters/inbound/src/http/handlers/delete_toner.rs:29-37 | `UnprocessableEntity("Toner id cannot be empty")` |
| HttpDeleteToner.FromDeleteTonerError | src/adapters/inbound/src/http/handlers/delete_toner.rs:15-27 | `NotFound` exactly gives `NotFound("Toner with id … not found")`; `Unknown` exactly gives `InternalServerError("Internal server error")` |
| HttpDeleteToner.ResponseDataFromId | src/adapters/inbound/src/http/handlers/delete_toner.rs:49-55 | the data's text parses back to the id |
| HttpDeleteToner.ResponseDataFromToner | src/adapters/inbound/src/http/handlers/delete_toner.rs:57-63 | the same data as built from the toner's id |
| HttpDeleteToner.DeleteTonerHandler | src/adapters/inbound/src/http/handlers/delete_toner.rs:83-94 | 200 exactly when the service succeeds, carrying the id it answered; the service's error mapped otherwise; the empty-id answer never occurs |
| HttpDeleteToner.DeletedIdRoundTrip | src/adapters/inbound/src/http/handlers/delete_toner.rs:83-94 | over a service that answers the id it was asked for, a successful answer carries the body's id |

## Left out

- Routing, server start-up, logging, OpenAPI annotations and the JSON encoding of bodies are not modelled.
- The status of each answer is modelled; the JSON it is written as is not.
- Concurrency and atomicity are not modelled: each handler runs alone, from start to finish.
- The movement insert and the stock update are not one transaction. A failure of the second statement (a panic in the handler) is not modelled.
- A failure in the middle of a sequence of UPDATEs is not modelled. The store is either online for the whole call or offline for it.
- MovementHandlers.CreateTonerMovement: when several printers hold the toner, `fetch_one` returns one unspecified row. The contract says only that the new row names some printer holding it. The same goes for CreateDrumMovement.
- MovementHandlers.CreateTonerMovement: the `try_get("id")` failure branch cannot be reached on a row of the printers table, so it is not modelled. The same goes for CreateDrumMovement.
- Driver error payloads are not modelled. In the handlers they collapse to one offline flag; in the SQLite repository to `SqlxError`.
- A primary-key clash on a supplied fresh id is modelled as a failed INSERT. Fresh ids are otherwise arbitrary parameters.
- The catalog counts (`count_toners`, `count_drums`, `count_printers`) read `COUNT(*)` as an `i64` and are reported as unbounded integers. The movement counts cast it with `::int`; that cast's failure above `i32` is modelled as a 500.
- Prices (`rust_decimal`) are opaque values that are carried but never computed with.
- Common.ParseOptionalUuid: UUIDs are modelled in their canonical lower-case hyphenated form only. The other textual forms that `Uuid::from_str` accepts (upper case, braces, URN, unhyphenated) are read as malformed.
- PrinterHandlers.CreatePrinter: because of the canonical-form restriction above, its precondition is stronger than the source's panic condition.
- HttpDeleteToner.TryIntoDomain: the same canonical-form restriction makes its precondition stronger than the source's panic condition.
- ApiErrors.IntoResponse: the validator's `ValidationErrors` text is modelled as one `field: message` line per failed rule. The crate's exact layout and field order are not modelled.
- ApiErrors.IntoResponse: `EmptyName`, `NameTooShort`, `NameTooLong` and `NotModified` have no mapping in the error enum's `into_response`, so no status is stated for them.
- The rules of the drum and printer requests' `validate()` are not part of this model: the request structs shown carry no rules, yet the handler documentation and the drum endpoint test expect an empty name to be refused with 400. DrumHandlers.CreateDrum, DrumHandlers.UpdateDrum, PrinterHandlers.CreatePrinter and PrinterHandlers.UpdatePrinter therefore take the rules as a parameter `validate` and state what happens for whatever it answers.
- The database schema is not part of this model. The handlers' behaviour is modelled without foreign keys or a unique name constraint; a printer may name rows that do not exist.
- The inbound adapter's `responses` module is not part of this model, and nor are the HTTP status codes of its error variants.
- `src/domain/src/stock/service.rs` is not modelled: it only delegates to the repository. The inbound handlers take the service as a function parameter instead.

## Findings

| source | as written | input that shows it | evidently intended | confidence | as-written member | corrected member |
|---|---|---|---|---|---|---|
| src/adapters/outbound/src/sqlite.rs:93-109 | `NotFound` is produced only for a database error with code "409". A DELETE whose id matches no row does not fail, and SQLite has no result code 409. | a delete request for an id that names no toner: the DELETE runs and touches 0 rows | an absent toner answers `NotFound { id }`. The corrected member decides `NotFound` by the DELETE's row count. It also drops the mapping of a failed DELETE with code "409" to `NotFound`: SQLite never reports that code, so every failed DELETE becomes `Unknown` | not executed | SqliteAdapter.AbsentIdIsDeletedAsWritten | SqliteAdapter.Sqlite.DeleteToner |
