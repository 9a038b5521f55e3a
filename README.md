# debtster_import — a verified Dafny model of the importer core

`debtster_import` is a Go service that imports spreadsheets (CSV or the first sheet of an
XLSX workbook) into the debt-collection database. The importer service opens the file,
picks the reader by content type or extension (falling back to the other reader when the
first one fails), cuts the rows into batches and hands each batch to the processor
registered for the import type. Each processor validates its rows, resolves debt numbers,
users and statuses through per-batch caches, writes the Postgres tables of its entity,
logs one audit item per row in the Mongo `import_record_items` collection and finally
marks the import record done. Around them sit the repositories with logic of their own
(debts, debtors, addresses, phones, contact-person phones, user plans, actions, users,
debt statuses) and the shared helpers (name splitting, token and date parsing, the PHP
model-type map).

The model keeps that structure, one module per source file:

- `Wrappers`, `Text`, `Ports`, `Db`: option/result types, the Go string functions the
  code relies on (on `seq<char>`), a spreadsheet row as a map from header to cell, the
  import request, and the database as tables with a deterministic fault oracle.
- `ModelTypes`, `Names`, `Helpers`, `Tokens`, `Opener`: the pure helpers.
- `Ledger`: the Mongo audit store as a class whose item log is a `seq` and whose
  import-record statuses are a `map`; `Lookups`: the cached lookups of `helpers.go`,
  `users_repo.go` and `debt_statuses_repo.go`.
- one module per repository with logic (`DebtsRepo`, `DebtorsRepo`, `AddressesRepo`,
  `PhonesRepo`, `ContactPhonesRepo`, `UserPlansRepo`, `ActionsRepo`), each a class over
  the table it writes;
- one module per processor (`Distribution` with `DistributionProps`, `Payments`,
  `ExecutiveDocuments`, `Debtors`, `Actions`, `Agreements`, `UserPlans`,
  `EnforcementProceedings`, `Users`, `UpdateDebts`) and `Proc` for what they share; each
  `ProcessBatch` is a method with a loop over the batch, proved against a specification
  function of the batch (the rows kept, the items logged, the tables afterwards);
- `Service`: format detection, the reader fallback decision, `toMap`, and the batching
  loops, proved to hand the processor a partition of the rows into full batches and one
  final short batch.

Clocks, uuids, password hashing, date layouts and the database's answers are parameters:
`now`, an `IdSource` counter, a `hash` function, a `parse` function, and fault maps naming
the statements that fail.

## Model

| member | source | states |
|---|---|---|
| ModelTypes.PHPModelByTable | internal/repository/imports/model_types.go:35-42 | a known model type gives its entry of `PHPModelMap`; any other string gives the Debtor class; every answer carries the `App\Infrastructure\Persistence\Models\` prefix |
| ModelTypes.KnownKeys | internal/repository/imports/model_types.go:5-33 | `PHPModelMap` is keyed by exactly the twelve model-type strings |
| ModelTypes.ClassesDistinct | internal/repository/imports/model_types.go:20-33 | no two model types map to the same PHP class |
| ModelTypes.UsersClass | internal/repository/imports/model_types.go:25 | the users entry is the `User` class, the user_type of a redistributed membership |
| Names.SplitJoinFields | internal/utils/names.go:6-7 | collapsing white space and splitting on single spaces gives exactly the white-space separated words, or one empty piece for blank input |
| Names.ParseFullNameWords | internal/utils/names.go:5-20 | last, first and middle are the first three words of the input, "" where a word is missing; later words are dropped |
| Names.ParseFullNameBlank | internal/utils/names.go:6-19 | a blank full name gives three empty names |
| Names.ParseFullNameShape | internal/utils/names.go:6-19 | no returned name contains white space, and a non-empty later name implies the earlier ones are non-empty |
| Helpers.FirstNonEmpty | internal/services/importer/processors/helpers.go:15-20 | a blank string gives the default; any other string is returned untrimmed |
| Helpers.NullIfEmpty | internal/services/importer/processors/helpers.go:22-28 | nil exactly when the input is blank; otherwise the trimmed, non-empty string |
| Helpers.NormalizeAmountFacts | internal/services/importer/processors/helpers.go:39-47 | a blank amount gives "0"; any other gives the trimmed text with spaces removed and commas made dots; the result is never "" and holds no space or comma |
| Helpers.NormalizeAmountZero | internal/services/importer/processors/helpers.go:39-47 | the result is "0" exactly when the input was blank or read "0" once trimmed, so "0.00" is not "0" |
| Helpers.NormalizeAmountIdempotent | internal/services/importer/processors/helpers.go:39-47 | normalising twice gives the same as normalising once |
| Helpers.Midnight | internal/services/importer/processors/helpers.go:87 | truncation keeps the calendar day and zeroes hour, minute, second and nanoseconds |
| Helpers.FirstMatchFacts | internal/services/importer/processors/helpers.go:85-91 | the layout search answers with the first layout that parses, in list order, or nothing when none parses |
| Helpers.ParseDateStrict | internal/services/importer/processors/helpers.go:72-92 | nil for blank input; otherwise the first of the six layouts, in order, that parses the trimmed text, truncated to midnight; nil when none parses |
| Helpers.ParseTimeLooseFacts | internal/services/importer/processors/helpers.go:49-70 | nil for blank input; the five local layouts are tried in order before RFC 1123Z, which is used only when none of them parses |
| Helpers.CachedLookup | internal/services/importer/processors/helpers.go:120-160 | a cached key answers from the cache with no error and no query; a miss queries once and caches the id on success, or caches nil and returns the error on any failure |
| Helpers.NegativeEntrySticks | internal/services/importer/processors/helpers.go:125-129 | after a failed lookup, asking again for the key gives nil with no error and no query, whatever the database would now answer |
| Helpers.AtMostOneQuery | internal/services/importer/processors/helpers.go:121-123 | a key is queried at most once: a second lookup never queries |
| Opener.ParseS3Url | internal/adapters/opener/compound.go:57-72 | a URL parse error is passed on; a scheme other than s3 fails with "scheme must be s3"; success means bucket = host and key = the cleaned path without one leading "/", neither empty nor "." or "/", else "empty bucket or key" |
| Opener.Open | internal/adapters/opener/compound.go:29-55 | the trimmed path decides: http(s) goes to the HTTP opener, s3:// is parsed and goes to the S3 opener, anything else to DefaultBucket; each missing opener or bucket has its own error |
| Opener.OpenS3Arguments | internal/adapters/opener/compound.go:39-53 | the S3 opener only ever receives a non-empty bucket, and for an s3:// URL a key that is not "", "." or "/" |
| Opener.OpenIgnoresSurroundingSpace | internal/adapters/opener/compound.go:30 | surrounding white space never changes the outcome |
| Tokens.SplitToken | internal/repository/personal_access_token.go:35-57 | a blank token fails with "empty token"; a "|" at an index above 0 splits off the id candidate (absent unless it parses as int64) from the token part; otherwise the whole trimmed token is the token part |
| Tokens.ById | internal/repository/personal_access_token.go:66-83 | the id query only returns a live user-token row with that id |
| Tokens.Newest | internal/repository/personal_access_token.go:95-112 | the fallback returns the newest live user-token row stored under either form, and nothing only when no such row exists |
| Tokens.Fallback | internal/repository/personal_access_token.go:95-116 | a failing fallback query, like one that finds no row, gives "token not found" |
| Tokens.FindTokenSound | internal/repository/personal_access_token.go:34-120 | a blank token is refused first with "empty token" and every other refusal reads "token not found"; an accepted row is live, a user token, and stores the SHA-256 hex of the token part or the token part itself, whichever queries fail |
| Tokens.FindTokenComplete | internal/repository/personal_access_token.go:59-120 | when neither query fails, a live row storing either form of the token part is always found, through the id query or the fallback |
| Tokens.FindTokenFaults | internal/repository/personal_access_token.go:77-116 | a failing id query is only logged and the fallback decides; with a failing fallback only a match by id is accepted; with both failing every token is refused as "token not found" |
| Tokens.SplitTokenWithId | internal/repository/personal_access_token.go:47-54 | "7\|abc" gives id 7 and token part "abc" |
| Tokens.SplitTokenLeadingBar | internal/repository/personal_access_token.go:47-57 | a leading "\|" gives no id, and the whole token is the token part |
| Tokens.SplitTokenBadId | internal/repository/personal_access_token.go:50-54 | a prefix that is not a number gives no id but still splits off the token part |
| Ledger.Mongo.constructor | internal/repository/imports/import_items.go:40-43 | a handle starts with no audit items and the given import records; whether it has a client and a database, which documents `InsertOne` refuses and which `UpdateOne` filters fail, is fixed for its lifetime |
| Ledger.Visible | internal/repository/imports/import_items.go:114-132 | a run of log calls through a handle without a client or database stores nothing, and never stores more documents than it was given |
| Ledger.AcceptedFacts | internal/repository/imports/import_items.go:62 | each insert succeeds or fails on its own: exactly the documents the server does not refuse are stored, in order, and all of them when it refuses none |
| Ledger.AcceptedConcat | internal/repository/imports/import_items.go:62 | what two runs of inserts store one after the other is what their concatenation stores |
| Ledger.Stamped | internal/repository/imports/import_items.go:45-49 | the stored document has updated_at = now, created_at = now only when it was zero, and every other field as given |
| Ledger.InsertItem | internal/repository/imports/import_items.go:40-63 | a missing handle, client or database fails with ErrClientDisconnected; otherwise the insert's own error comes back and the collection gains the stamped document exactly when the server accepts it; import records never change |
| Ledger.Entry | internal/repository/imports/import_items.go:119-128 | the logged document carries the caller's record id, model type, model id, payload, status and errors, stamped at now |
| Ledger.LogMongo | internal/repository/imports/import_items.go:114-132 | the collection gains the entry or nothing (no handle or database, or a failed insert), and no error reaches the caller |
| Ledger.LogMongoFail | internal/repository/imports/import_items.go:109-112 | like LogMongo, with the status forced to "failed" whatever the caller filled in |
| Ledger.ObjectIdFromHex | internal/repository/imports/import_items.go:85 | an id reads as an ObjectId exactly when it is 24 hexadecimal digits |
| Ledger.Target | internal/repository/imports/import_items.go:85-101 | the update reaches the ObjectId record when the id parses and that record exists, otherwise the record stored under the plain string, otherwise none |
| Ledger.StatusUpdateFrame | internal/repository/imports/import_items.go:76-102 | a successful update changes one record and of it only status and updated_at |
| Ledger.DoneTwice | internal/repository/imports/import_items.go:78-83 | marking a record done twice is marking it done once at the later time |
| Ledger.StatusUpdateChecks | internal/repository/imports/import_items.go:65-101 | a missing handle, an empty id and an empty status are refused, in that order, before any write; then an `UpdateOne` error is returned as it is; without one the only failure is that no record matches |
| Ledger.UpdateFault | internal/repository/imports/import_items.go:85-98 | an update error arises exactly when the ObjectId filter is sent and fails, or the string filter is sent (no ObjectId, or no ObjectId record) and fails |
| Ledger.UpdateFaultOrder | internal/repository/imports/import_items.go:85-98 | the ObjectId update's error wins; a matched ObjectId record succeeds without the string update; the string update's error is returned only when that update is sent |
| Ledger.UpdateImportRecordStatus | internal/repository/imports/import_items.go:65-103 | the record store becomes the result of the status update (unchanged on error), the checks' and `UpdateOne`'s errors are returned, and audit items are untouched |
| Ledger.UpdateImportRecordStatusDone | internal/repository/imports/import_items.go:105-107 | the status update with "done" |
| Lookups.UserRepo.constructor | internal/repository/database/users_repo.go:14-20 | a new repository has an allocated, empty cache and has sent no query |
| Lookups.UserRepo.GetUserBigint | internal/repository/database/users_repo.go:26-44 | a cached username answers from the cache with no error and no query; a miss sends exactly one query, caching the id on success and nil with the error on any failure |
| Lookups.UnallocatedCachePanics | internal/repository/database/debt_statuses_repo.go:14-37 | with the cache map never made, the first lookup of any key panics on the cache write, whatever the database answers |
| Lookups.AllocatedCacheCaches | internal/repository/database/debt_statuses_repo.go:22-38 | with an allocated cache the lookup never panics; a failed query leaves a negative entry with the error, a successful one caches and returns the id |
| Lookups.DebtStatusesRepo.AsWritten | internal/repository/database/debt_statuses_repo.go:14-19 | `NewDebtStatusesRepo` as written: the cache is absent (a nil map) |
| Lookups.DebtStatusesRepo.constructor | internal/repository/database/debt_statuses_repo.go:14-19 | the corrected constructor: the cache is allocated and empty |
| Lookups.DebtStatusesRepo.GetStatusBigint | internal/repository/database/debt_statuses_repo.go:21-39 | the answer and the cache afterwards are those of the nil-map-aware lookup; a query is sent exactly when the key is not cached |
| Lookups.MissingTexts | internal/services/importer/processors/actions.go:93-104 | the two blank-reference warnings read "missing username -> user_id=NULL" and "missing status -> debt_status_id=NULL" |
| Lookups.ResolveFacts | internal/services/importer/processors/actions.go:90-111 | an optional reference: blank gives the "missing" warning with no lookup; otherwise the id is the cached or queried one, with a "not found" warning naming the key exactly when there is no id; only uncached keys are queried |
| Proc.CheckDeps | internal/services/importer/processors/base.go:27-37 | no error exactly when Postgres and Mongo are both available; Postgres is checked first, with "postgres not available", then "mongo not available" |
| Proc.LogItem | internal/services/importer/processors/helpers.go:103-118 | the audit item of one log call is the ledger entry of its fields |
| Proc.Log | internal/services/importer/processors/helpers.go:103-118 | the audit collection gains that item, or nothing without a connected handle; import records are untouched |
| Proc.LogFail | internal/services/importer/processors/helpers.go:99-101 | `logMongo` with status "failed" |
| Proc.WithCause | internal/services/importer/processors/payments.go:92-96 | a not-found message gets " (err)" appended exactly when a lookup error came back |
| Proc.VisibleConcat | internal/services/importer/processors/helpers.go:103-106 | what a sequence of log calls writes is what its parts write, in order |
| Proc.CountDone | internal/services/importer/processors/debtors.go:37-38 | the success counter is the number of done items and never exceeds the number of items |
| Proc.CountDoneAppend | internal/services/importer/processors/debtors.go:37-38 | the success counter adds up over consecutive parts of a batch |
| Proc.InsertedSucceeded | internal/services/importer/processors/enforcement_proceedings.go:128-141 | the table gains the row of every statement that succeeded, and no more rows than there were statements; the users processor (users.go:138-151) writes its batch the same way |
| Proc.InsertedOnlySucceeded | internal/services/importer/processors/enforcement_proceedings.go:128-141 | every row the table gains is that of a statement that succeeded; the users processor (users.go:138-151) writes its batch the same way |
| Proc.InsertedAll | internal/services/importer/processors/enforcement_proceedings.go:128-141 | when every statement succeeds the table gains all the rows, in order; the users processor (users.go:138-151) writes its batch the same way |
| Proc.DistinctIds | internal/services/importer/processors/enforcement_proceedings.go:67-141 | the failures of the first pass and then the answers are numbered on from one id source, so no two items share an id; the users processor (users.go:138-151) writes its batch the same way |
| Proc.BatchAnswers | internal/services/importer/processors/enforcement_proceedings.go:128-133 | one answer per statement of the batch, each given by `BatchAnswer` from the one before |
| Proc.BatchAnswersPrefix | internal/services/importer/processors/enforcement_proceedings.go:128-133 | the answers to the first statements of a batch do not depend on the later ones |
| Proc.BatchAnswersAt | internal/services/importer/processors/enforcement_proceedings.go:132-133 | the `i`-th `br.Exec()` returns the error of statement `i - 1` when that one failed, and otherwise statement `i`'s own outcome |
| Proc.BatchAnswersFacts | internal/services/importer/processors/enforcement_proceedings.go:128-136 | up to the first failure each statement answers for itself; from the first failure on, every later answer is that same error (one pgx batch is one implicit transaction); the users processor (users.go:138-146) reads its batch the same way |
| Proc.BatchInsertedStops | internal/services/importer/processors/enforcement_proceedings.go:128-141 | nothing after the first failing statement of a batch reaches the table |
| Proc.InsertedFailedTail | internal/services/importer/processors/enforcement_proceedings.go:132-137 | statements that all failed add no row to the table |
| Proc.InsertedSnoc | internal/services/importer/processors/enforcement_proceedings.go:132-141 | the table grows by the row of each successful statement; the users processor (users.go:138-151) writes its batch the same way |
| DebtsRepo.OrZero | internal/repository/database/debts_repo.go:25-28 | a nil amount becomes 0, a present one is kept |
| DebtsRepo.AdditionalOf | internal/repository/database/debts_repo.go:57-62 | additional_data is the given text exactly when it is non-blank and begins, untrimmed, with "{" or "[" (or is "{}"); otherwise "{}" |
| DebtsRepo.Prepared | internal/repository/database/debts_repo.go:20-62 | the row sent has filial, product and currency trimmed, all ten amounts set, the checked additional data, and every other field as given |
| DebtsRepo.DefaultedFacts | internal/repository/database/debts_repo.go:25-55 | defaulting sets all ten amounts and equals coalescing each with 0 |
| DebtsRepo.UpsertFrame | internal/repository/database/debts_repo.go:65-113 | the upsert touches only the row of its number, which exists afterwards; the supplied id is stored only when the number was new |
| DebtsRepo.ConflictOverwritesAmounts | internal/repository/database/debts_repo.go:88-98 | on a conflict every amount and additional_data are overwritten, so a missing amount resets the stored one to 0 |
| DebtsRepo.ConflictKeepsStored | internal/repository/database/debts_repo.go:81-101 | on a conflict a null debtor, date, user, counterparty or status, and an empty filial, product or currency, keep the stored value; anything else overwrites |
| DebtsRepo.UpsertTwice | internal/repository/database/debts_repo.go:65-113 | sending the same row twice leaves the table as sending it once, apart from updated_at |
| DebtsRepo.GetByUUID | internal/repository/database/debts_repo.go:118-120 | always finds nothing |
| DebtsRepo.DebtsTable.constructor | internal/repository/database/debts_repo.go:14-18 | the table starts with the given rows and failing numbers |
| DebtsRepo.DebtsTable.ZeroMissing | internal/repository/database/debts_repo.go:25-55 | after the ten nil checks every amount is the defaulted one |
| DebtsRepo.DebtsTable.ZeroIfNil | internal/repository/database/debts_repo.go:26-28 | one nil check: a nil amount becomes 0, a present one is kept |
| DebtsRepo.DebtsTable.UpdateOrCreate | internal/repository/database/debts_repo.go:20-116 | a failing statement returns its error and changes nothing; otherwise the table becomes the upsert of the prepared row |
| DebtorsRepo.WithNames | internal/repository/database/debtors_repo.go:25-30 | the names are split from the full name only when the full name is non-blank and all three name fields are blank; otherwise the debtor is unchanged, and no other field ever changes |
| DebtorsRepo.SaveFacts | internal/repository/database/debtors_repo.go:20-83 | a blank IIN returns nothing and sends nothing; otherwise the debtor returned is the row stored under the IIN after the write, and no other row changes |
| DebtorsRepo.SaveConflict | internal/repository/database/debtors_repo.go:44-56 | on a conflict the id and created_at stay; an empty incoming string or a null date keeps the stored value; everything else overwrites |
| DebtorsRepo.SaveInsert | internal/repository/database/debtors_repo.go:33-43 | a new IIN is stored under the generated id, with its names filled in |
| DebtorsRepo.ParseFullName | internal/repository/database/debtors_repo.go:85-100 | the repository's `parseFullName` agrees with `utils.ParseFullName` on every input |
| DebtorsRepo.DebtorsTable.constructor | internal/repository/database/debtors_repo.go:14-18 | the table starts with the given rows and failing IINs |
| DebtorsRepo.DebtorsTable.UpdateOrCreate | internal/repository/database/debtors_repo.go:20-83 | the debtor, the error and the new table are those of the save; an id is drawn only for an insert |
| ContactPhonesRepo.TypeOf | internal/repository/database/contact_person_phones_repo.go:58-63 | the type is 1 when there is no third field or it is blank |
| ContactPhonesRepo.ParseEntryType | internal/repository/database/contact_person_phones_repo.go:58-63 | a usable entry is saved with the type the integer scan reads from its trimmed third field when that field is present, non-blank and scans, and with 1 otherwise |
| ContactPhonesRepo.ParseEntry | internal/repository/database/contact_person_phones_repo.go:37-63 | an entry is used only when it is non-blank and its first field holds a digit; its phone is exactly the digits of that field |
| ContactPhonesRepo.ParseEntryDefaults | internal/repository/database/contact_person_phones_repo.go:58-63 | a usable entry with a missing or blank third field is saved with type 1 |
| ContactPhonesRepo.SaveSkips | internal/repository/database/contact_person_phones_repo.go:31-33 | a blank value or an empty debtor id returns nil with no writes |
| ContactPhonesRepo.SaveEntryStores | internal/repository/database/contact_person_phones_repo.go:65-78 | a saved entry leaves its person under (debtor, full name) with the entry's type, keeping an existing person's id, and its phone under that person's id with the same type; no row is removed |
| ContactPhonesRepo.SaveEntryErrors | internal/repository/database/contact_person_phones_repo.go:65-78 | a failing person upsert returns "upsert contact person failed: …" and writes nothing; a failing phone upsert returns "upsert phone failed: …" and leaves the person written |
| ContactPhonesRepo.SaveEntriesKeepsKeys | internal/repository/database/contact_person_phones_repo.go:37-81 | saving entries, even up to a failure, never removes a person or a phone row |
| ContactPhonesRepo.SaveEntriesCons | internal/repository/database/contact_person_phones_repo.go:37-79 | entries are saved in order, and the first failure returns its error and skips the remaining entries |
| ContactPhonesRepo.ContactTables.constructor | internal/repository/database/contact_person_phones_repo.go:14-22 | the tables start in the given state with the given failures |
| ContactPhonesRepo.ContactTables.UpsertContactPerson | internal/repository/database/contact_person_phones_repo.go:84-97 | a failing statement returns its error and changes nothing; otherwise the person is inserted or its type updated, and its id is returned |
| ContactPhonesRepo.ContactTables.UpsertPhone | internal/repository/database/contact_person_phones_repo.go:99-110 | a failing statement returns its error and changes nothing; otherwise the phone row under the ContactPerson subject type holds the type |
| ContactPhonesRepo.ContactTables.SaveOne | internal/repository/database/contact_person_phones_repo.go:65-78 | one entry: the error and the tables afterwards are those of the entry's save |
| ContactPhonesRepo.ContactTables.SaveContactPersonPhones | internal/repository/database/contact_person_phones_repo.go:30-82 | the error and the tables afterwards are those of saving the usable entries of the "\|"-split value in order, stopping at the first failure |
| PhonesRepo.DropSeps | internal/repository/database/phones_repo.go:29-30 | dropping a leading run of separators never lengthens the text, and shortens it when it starts with one |
| PhonesRepo.DropSepsFacts | internal/repository/database/phones_repo.go:29-30 | what is dropped is a run of "/", "\|" and ","; what is kept does not start with one |
| PhonesRepo.SplitRuns | internal/repository/database/phones_repo.go:29-30 | splitting on runs of separators always gives at least one piece |
| PhonesRepo.SanitizePhone | internal/repository/database/phones_repo.go:58-61 | the result is exactly the digits of the input, in order |
| PhonesRepo.PhonesKeepDigits | internal/repository/database/phones_repo.go:29-36 | the surviving phones, glued together, are exactly the digits of the raw value, and each is a non-empty run of digits |
| PhonesRepo.SurvivingDigits | internal/repository/database/phones_repo.go:29-36 | splitting and sanitising loses no digit of the raw value |
| PhonesRepo.InsertAllCons | internal/repository/database/phones_repo.go:32-53 | phones are inserted in order, and the first failing insert returns its error and stops the loop |
| PhonesRepo.InsertAllStores | internal/repository/database/phones_repo.go:32-53 | with a well-formed INSERT and no failing insert, one row per phone is appended, in order, each under the given subject and type; earlier rows are kept |
| PhonesRepo.AsWrittenStoresNothing | internal/repository/database/phones_repo.go:38-52 | as written, no phone is ever stored, and every value that holds a digit returns the INSERT's syntax error |
| PhonesRepo.AsWrittenExample | internal/repository/database/phones_repo.go:38-52 | the debtor phone "7" is not saved by the code as written |
| PhonesRepo.PhonesTable.constructor | internal/repository/database/phones_repo.go:15-19 | the table starts with the given rows and failing phones |
| PhonesRepo.PhonesTable.SavePhones | internal/repository/database/phones_repo.go:21-56 | with a well-formed INSERT: a blank raw value or subject type, or an empty subject id, writes nothing; otherwise the error and the table afterwards are those of inserting the surviving phones in order, stopping at the first failure |
| PhonesRepo.PhonesTable.SavePhonesAsWritten | internal/repository/database/phones_repo.go:21-56 | as written: the first surviving phone's INSERT fails to parse, so the call errors and the table is unchanged |
| AddressesRepo.SetAddress | internal/repository/database/addresses_repo.go:49-54 | the UPDATE gives every row of (subject_id, type_id) the new address and updated_at, and leaves every other row as it was |
| AddressesRepo.SaveChecks | internal/repository/database/addresses_repo.go:22-30 | in order: a blank IIN fails with "iin is required", a blank address returns nil, a blank debtor id fails with "debtor_id is required"; none touches the table |
| AddressesRepo.SaveFailsCleanly | internal/repository/database/addresses_repo.go:43-71 | a failed check, update or insert leaves the table unchanged |
| AddressesRepo.SaveStores | internal/repository/database/addresses_repo.go:32-72 | after a successful save of a non-blank address some row of (debtor, type), a nil type counting as 0, holds the address, and rows of other keys are untouched |
| AddressesRepo.SaveAllSplit | internal/repository/database/addresses_repo.go:77-84 | saves run in order: when the first k succeed, the batch is those saves followed by the rest, so a later failure keeps the earlier saves |
| AddressesRepo.AddressesTable.constructor | internal/repository/database/addresses_repo.go:15-19 | the table starts with the given rows and failures |
| AddressesRepo.AddressesTable.SaveAddress | internal/repository/database/addresses_repo.go:21-75 | the error and the table afterwards are those of the save: the checks, then the existence check, then the update of every row of the key or one insert |
| AddressesRepo.AddressesTable.SaveBatchAddresses | internal/repository/database/addresses_repo.go:77-84 | the error and the table afterwards are those of saving the addresses in order, stopping at the first error |
| UserPlansRepo.Affected | internal/repository/database/user_plans_repo.go:36 | the UPDATE affects no row exactly when no row has that user and that month end |
| UserPlansRepo.SetPlan | internal/repository/database/user_plans_repo.go:25-32 | every row of (user, month end) takes the amount and quantity; every other row is unchanged |
| UserPlansRepo.SaveChecks | internal/repository/database/user_plans_repo.go:20-35 | a nil user sends nothing; an update error is returned without trying the insert; any error leaves the table unchanged |
| UserPlansRepo.SaveStores | internal/repository/database/user_plans_repo.go:23-44 | after a successful save some row of (user, month end) holds the amount and quantity; the insert runs only when the update matched nothing, and then adds exactly one row; the month end is computed once for both |
| UserPlansRepo.PlansTable.constructor | internal/repository/database/user_plans_repo.go:15-17 | the table starts with the given rows, failures and month-end computation |
| UserPlansRepo.PlansTable.UpdateOrCreate | internal/repository/database/user_plans_repo.go:19-45 | the error and the table afterwards are those of the update-then-insert save at `endOfMonth(EndDate)` |
| ActionsRepo.Queued | internal/repository/database/actions_repo.go:31-46 | only actions with a debt are queued, never more than given; nothing is queued exactly when no action has a debt |
| ActionsRepo.QueuedAppend | internal/repository/database/actions_repo.go:31-46 | statements are queued in input order |
| ActionsRepo.QueuedAll | internal/repository/database/actions_repo.go:31-46 | an input whose every action has a debt is queued whole, in order |
| ActionsRepo.FirstFault | internal/repository/database/actions_repo.go:55-59 | the results are read in order up to the first failing statement, or all of them |
| ActionsRepo.ExecPrefix | internal/repository/database/actions_repo.go:52-61 | the statements before the first failing one are applied in order and its error is returned; with no failure every queued action is appended and nil returned |
| ActionsRepo.InsertFacts | internal/repository/database/actions_repo.go:23-62 | an empty input, or one with no debt, sends nothing; otherwise the table grows by the queued actions up to the first failing one |
| ActionsRepo.ActionsTable.constructor | internal/repository/database/actions_repo.go:16-21 | the table starts with the given rows and failing statements |
| ActionsRepo.ActionsTable.InsertActions | internal/repository/database/actions_repo.go:23-62 | the error and the table afterwards are those of queuing the actions with a debt and reading their results in order |
| Service.Cell | internal/services/importer/service.go:274-278 | a record shorter than the header reads "" in the missing cells |
| Service.ToMap | internal/services/importer/service.go:271-281 | the row maps every trimmed header name to the trimmed cell under it, built left to right |
| Service.RowOfKeys | internal/services/importer/service.go:271-281 | the row's keys are exactly the trimmed header names |
| Service.RowOfLastWins | internal/services/importer/service.go:273-279 | when two header names trim to the same key, the cell under the last of them wins |
| Service.RowOfIgnoresExtraCells | internal/services/importer/service.go:273-279 | cells beyond the header's width do not change the row |
| Service.DataRows | internal/services/importer/service.go:175-180 | a record that fails to read is skipped; every readable one gives one row, in order |
| Service.FlattenPrefix | internal/services/importer/service.go:162-191 | the rows of the batches handed over so far are a prefix of all the rows |
| Service.Width | internal/services/importer/service.go:182 | a batch is flushed as soon as it holds `batchSize` rows, so a size below 1 flushes every row |
| Service.PushFacts | internal/services/importer/service.go:179-190 | reading one more row keeps every flushed batch full and the pending rest short of full, their rows being the rows read, in order |
| Service.ScanFacts | internal/services/importer/service.go:162-191 | flushed batches are full, the pending batch is not, and together they hold the rows read so far, in order |
| Service.ScanExtends | internal/services/importer/service.go:162-191 | batches flushed after fewer records come first among those flushed after more: nothing once flushed is taken back |
| Service.Partition | internal/services/importer/service.go:162-191 | at the end of the stream the batches hold every readable row exactly once, in order; none is empty and every one but the last is full |
| Service.SendFacts | internal/services/importer/service.go:164-190 | the batches handed over are a prefix of the batches; with no refusal all are sent and all rows counted; a refusal is the last call, its error is returned and only the rows before it count |
| Service.SendAll | internal/services/importer/service.go:164-190 | with no refusal every batch is handed over and all its rows are counted |
| Service.SendPrefix | internal/services/importer/service.go:164-190 | the batches handed over are a prefix of those built |
| Service.SendRefused | internal/services/importer/service.go:184-186 | a refused batch is the last one handed over, its error is returned, and its rows are not counted |
| Service.SendAccepts | internal/services/importer/service.go:184-188 | every call before the refused one was accepted |
| Service.SendStops | internal/services/importer/service.go:184-186 | no batch after a refused one is ever handed over |
| Service.StopsAt | internal/services/importer/service.go:184-186 | a refusal within the first records decides the outcome of reading the whole file |
| Service.Processor.constructor | internal/ports/processor.go:9-12 | a processor starts having seen no batch |
| Service.Processor.ProcessBatch | internal/ports/processor.go:11 | the processor records the batch and answers with the error of that call, if it is one it refuses |
| Service.ReadAll | internal/services/importer/service.go:162-193 | a reading that ends without a refusal hands over every readable row exactly once, in order, in full batches but for the last, and counts them all |
| Service.ReadRefused | internal/services/importer/service.go:162-191 | a refused batch ends the reading: the processor saw a prefix of the rows, and only the rows of the batches before the refused one are counted |
| Service.SendStep | internal/services/importer/service.go:182-190 | handing one more batch over while none was refused extends the batches sent and the count by that batch |
| Service.SheetReadWithoutTrailer | internal/services/importer/service.go:235-264 | without an iterator error the sheet's rows are batched and handed over as the CSV rows are |
| Service.StreamCsv | internal/services/importer/service.go:145-194 | a header that fails to read ends with its error and no call; otherwise the processor gets the batches of the records, in order, up to the first refusal, whose error is returned |
| Service.StreamXlsx | internal/services/importer/service.go:196-267 | a failed open, a workbook without sheets, a failed row iterator or an unreadable header row each end with their error and no call; an empty sheet ends with the iterator's error; otherwise the sheet's rows are batched and handed over |
| Service.StreamRecords | internal/services/importer/service.go:145-267 | the processor's calls grow by exactly the batches of the reading, and the count and error are those of the reading |
| Service.FlushRest | internal/services/importer/service.go:164-172 | after every full batch was accepted, an iterator error is returned before the pending batch is sent; otherwise the pending batch is handed over and counted |
| Service.SendAccepted | internal/services/importer/service.go:182-190 | batches whose calls are all accepted are all handed over and all their rows counted |
| Service.FlushedNext | internal/services/importer/service.go:175-190 | one more record: an unreadable one is skipped, a readable one joins the batch, and a full batch is handed over, either counted or ending the reading with the processor's error |
| Service.FlushFull | internal/services/importer/service.go:162-191 | the records are read in order and every full batch is flushed; a refusal stops the reading with its error |
| Service.ReadRecord | internal/services/importer/service.go:163-190 | one pass of the loop reads one record, skips it when unreadable and flushes a full batch |
| Service.Ext | internal/services/importer/service.go:288 | `path.Ext`: the suffix from the last dot of the last path element, or "" |
| Service.ExtOfName | internal/services/importer/service.go:288 | a name ending in a dot and a dot-free, slash-free extension has that extension |
| Service.DetectFormat | internal/services/importer/service.go:283-303 | the file extension decides when it is csv or xlsx in any letter case; otherwise the media type decides (the spreadsheet type gives xlsx; text/csv, application/csv and text/plain give csv); anything else gives "" |
| Service.DetectFormatByName | internal/services/importer/service.go:284-293 | a name with a csv or xlsx extension, in any case, is read in that format whatever its content type |
| Service.DetectFormatWithoutExtension | internal/services/importer/service.go:295-302 | a name without an extension is typed by its content type alone |
| Service.OtherReader | internal/services/importer/service.go:88-121 | the fallback reader is always the other reader |
| Service.PipelineOutcome | internal/services/importer/service.go:88-126 | the import fails only when both readers fail, with the second one's error; on success the reported format is the first reader's exactly when the first reader succeeded; the processor sees the first reader's batches before the second's |
| Service.PipelineOrder | internal/services/importer/service.go:88-121 | a detected csv file is read as CSV first; every other format, "" included, is read as XLSX first |
| Service.ImportService.constructor | internal/services/importer/service.go:48-53 | a batch size below 1 is replaced by the default of 1000 |
| Service.ImportService.BatchSize | internal/services/importer/service.go:80-83 | a positive requested batch size is used, otherwise the service's default |
| Service.ImportService.RunReader | internal/services/importer/service.go:88-121 | one reader run hands the processor exactly the batches of that reading and returns its count and error |
| Service.ImportService.ReadPipeline | internal/services/importer/service.go:88-121 | the processor's calls grow by the first reader's batches and, when it fails, the other reader's; the error is the pipeline's, and on success so are the format and count |
| Service.ImportService.Import | internal/services/importer/service.go:55-143 | an unknown import type fails with "no processor for type: " and the type; an opener error is returned with no call to the processor; otherwise the processor sees exactly the pipeline's batches, and the result is the pipeline's error or the metadata with the format and row count |
| Distribution.FirstRoleSound | internal/services/importer/processors/distribution_debts.go:202-205 | the role lookup finds a role of one of the user's memberships in the app team, and finds none exactly when the user has no membership there |
| Distribution.Resolve | internal/services/importer/processors/distribution_debts.go:117-149 | a cache hit answers without a query, a cached nil meaning skip; a miss queries once, caching the id on success and nil on "no rows", and leaving the cache alone on any other error |
| Distribution.ResolveKeepsCache | internal/services/importer/processors/distribution_debts.go:118-149 | a lookup only ever adds its own key to a cache; every earlier entry stays |
| Distribution.PrePassNext | internal/services/importer/processors/distribution_debts.go:87-245 | the pre-pass over one more row is the pre-pass so far advanced by the verdict on that row |
| Distribution.RemoveStale | internal/services/importer/processors/distribution_debts.go:334-344 | the DELETE keeps exactly the memberships that are not stale |
| Distribution.RemoveStaleMembers | internal/services/importer/processors/distribution_debts.go:334-344 | a membership survives the DELETE exactly when it is not in the debt team, or is in the system team, or belongs to the debt's owner with the app role |
| Distribution.MainPassShape | internal/services/importer/processors/distribution_debts.go:257-388 | the main pass logs one item per surviving row, in order, done or failed, under that row's id and payload |
| Distribution.MainPassNext | internal/services/importer/processors/distribution_debts.go:257-388 | the main pass over one more row reconciles it against the tables the rows before it left and logs its verdict |
| Distribution.CacheGet | internal/services/importer/processors/distribution_debts.go:117-149 | the cache lookup of the pre-pass answers and updates the cache exactly as `Resolve` says |
| Distribution.Redistribution.constructor | internal/services/importer/processors/distribution_debts.go:25-29 | a processor starts with the given dependencies, lookups and tables, no query sent and system team 0 |
| Distribution.Redistribution.ResolveOne | internal/services/importer/processors/distribution_debts.go:87-234 | the pre-pass on one row gives the verdict, caches and queries of `ResolveRow` |
| Distribution.Redistribution.ResolveFound | internal/services/importer/processors/distribution_debts.go:114-234 | the three lookups of a row with both keys present give the verdict, caches and queries of `Lookups3` |
| Distribution.Redistribution.ResolveDebt | internal/services/importer/processors/distribution_debts.go:117-152 | the debt lookup gives the stage of `DebtStage` and sends its queries |
| Distribution.Redistribution.ResolveUser | internal/services/importer/processors/distribution_debts.go:157-192 | the user lookup gives the stage of `UserStage` and sends its queries |
| Distribution.Redistribution.ResolveRole | internal/services/importer/processors/distribution_debts.go:197-234 | the app-team role lookup gives the stage of `RoleStage` and sends its queries |
| Distribution.Redistribution.ReconcileOne | internal/services/importer/processors/distribution_debts.go:258-375 | the tables and the failure after one row are those of `Reconcile`: the first failing step ends the row with its prefixed error |
| Distribution.Redistribution.RunPrePass | internal/services/importer/processors/distribution_debts.go:87-245 | every row gets a fresh id; the queries, caches, audit items and surviving rows are those of the pre-pass over the whole batch |
| Distribution.Redistribution.PreRow | internal/services/importer/processors/distribution_debts.go:87-245 | one pass of the pre-pass loop moves the state from the prefix before row i to the prefix through it |
| Distribution.Redistribution.Judge | internal/services/importer/processors/distribution_debts.go:87-234 | the verdict on row i is the next step of the pre-pass |
| Distribution.Redistribution.Settle | internal/services/importer/processors/distribution_debts.go:93-244 | a rejected row gets one failed item, a skipped row none, and an accepted row is kept |
| Distribution.Redistribution.MainRow | internal/services/importer/processors/distribution_debts.go:257-388 | one row of the main pass reconciles it and logs done or failed with the failing step's prefix |
| Distribution.Redistribution.RunMainPass | internal/services/importer/processors/distribution_debts.go:257-388 | the tables and audit items after the main pass are those of `MainPass` over the surviving rows |
| Distribution.Redistribution.RunBatch | internal/services/importer/processors/distribution_debts.go:87-394 | the pre-pass, then (only when a row survives) the main pass and the status update to done; the items are the pre-pass's followed by the main pass's |
| Distribution.Redistribution.ProcessBatch | internal/services/importer/processors/distribution_debts.go:33-396 | missing dependencies fail with nothing changed; a missing app team fails with "app team not found: app", another lookup error with "lookup app team failed: "; otherwise nil, with the tables, queries, items and record status of the two passes |
| DistributionProps.RemoveStaleNoop | internal/services/importer/processors/distribution_debts.go:334-344 | the DELETE changes nothing once no membership is stale |
| DistributionProps.TeamNameIsDebtTeam | internal/services/importer/processors/distribution_debts.go:258 | the team name of a row starts with "debt/" |
| DistributionProps.ReconcileNeverFailsPrefix | internal/services/importer/processors/distribution_debts.go:322-331 | the "team name not debt/*" branch never fires, since the team is fetched by its "debt/" name |
| DistributionProps.ReconcileSelectFindsTeam | internal/services/importer/processors/distribution_debts.go:306-319 | the SELECT right after the INSERT … ON CONFLICT DO NOTHING finds the team, so that step fails only when its statement fails |
| DistributionProps.ReconcileFailureFrame | internal/services/importer/processors/distribution_debts.go:278-375 | a failure at a step keeps the writes of the steps before it and makes none after; the error is that statement's |
| DistributionProps.ReconcileFailureKeepsLater | internal/services/importer/processors/distribution_debts.go:278-375 | a failure before the team steps leaves the teams unchanged, and one before the membership steps leaves role_user unchanged |
| DistributionProps.ReconcileDone | internal/services/importer/processors/distribution_debts.go:278-377 | a completed row went through every step, and the tables are those the four writes produce in turn |
| DistributionProps.ReconcileSetsOwner | internal/services/importer/processors/distribution_debts.go:261-267 | after a completed row the debt, when present, is owned by the row's user, and no other debt changed |
| DistributionProps.ReconcileTeamExists | internal/services/importer/processors/distribution_debts.go:268-272 | after a completed row the team "debt/<debt id>" exists, and no other team changed |
| DistributionProps.ReconcileMembers | internal/services/importer/processors/distribution_debts.go:333-375 | after a completed row the user holds the role in the debt's team; unless it is the system team no other (user, role) pair is left there; other teams' memberships are unchanged |
| DistributionProps.ReconcileUserType | internal/services/importer/processors/distribution_debts.go:23 | every membership the main pass inserts has user_type the User model class |
| DistributionProps.ReconcileKeepsValid | internal/services/importer/processors/distribution_debts.go:268-272 | team names stay unique, each with its own id |
| DistributionProps.EnsureTeamRowValid | internal/services/importer/processors/distribution_debts.go:268-272 | the team INSERT keeps names unique and hands out a fresh id |
| DistributionProps.ReconcileTeams | internal/services/importer/processors/distribution_debts.go:268-272 | only the team INSERT writes the teams |
| DistributionProps.ReconcileRepeat | internal/services/importer/processors/distribution_debts.go:257-388 | running a completed row again with the same faults writes nothing and completes again |
| DistributionProps.Lookups3Caches | internal/services/importer/processors/distribution_debts.go:117-234 | the caches after a row's lookups hold only what the database answers and keep every earlier key; an accepted row carries the database's ids |
| DistributionProps.Lookups3Queries | internal/services/importer/processors/distribution_debts.go:117-234 | a row queries only keys not yet cached, none twice, and each answered query leaves its key cached |
| DistributionProps.PrePassFacts | internal/services/importer/processors/distribution_debts.go:87-245 | over every prefix of the batch the caches are sound, every answered lookup was sent at most once, and every surviving row carries the ids the database gives |
| DistributionProps.MissingKeysRejected | internal/services/importer/processors/distribution_debts.go:93-112 | a blank debt_number is rejected with "missing debt_number" before a blank username is with "missing username", with no lookup and no cache change |
| DistributionProps.CachedMissSkipped | internal/services/importer/processors/distribution_debts.go:150-152 | a row whose debt number, or (its debt cached) whose username, is a cached miss is skipped silently, with no item and no query |
| DistributionProps.UnknownDebtLoggedOnce | internal/services/importer/processors/distribution_debts.go:126-137 | of two rows with the same unknown debt number only the first is logged, as "debt not found: N" after one lookup; the second is skipped without a query |
| DistributionProps.MainPassItem | internal/services/importer/processors/distribution_debts.go:257-388 | the k-th item of the main pass is the verdict on the k-th surviving row against the tables the rows before it left: a failure aborts only that row |
| DistributionProps.RowItemStatus | internal/services/importer/processors/distribution_debts.go:283-387 | an item is done exactly when its row completed; a failed one carries the step's prefix and the statement's error, a done one no error |
| DistributionProps.MainPassKeepsValid | internal/services/importer/processors/distribution_debts.go:257-388 | team names stay unique over the whole main pass |
| Payments.PaymentsOf | internal/services/importer/processors/payments.go:205-208 | the payments handed to CreateBatch are the prepared rows' payments, in order, one each |
| Payments.JudgeOrder | internal/services/importer/processors/payments.go:74-121 | a blank debt number is rejected first; an unresolved one is rejected with "debt not found: N" and the cause, when there is one, in parentheses; a number already resolved in the batch is not queried again; then a blank username is rejected |
| Payments.MissingDebtNotCached | internal/services/importer/processors/payments.go:86-108 | a debt that is not found is not cached, so the next row with the same number queries again |
| Payments.UnknownUserTwice | internal/services/importer/processors/payments.go:123-145 | a username the database fails on is reported with the error in parentheses the first time, and, cached as nil by the shared user repository, without the error and without a query afterwards |
| Payments.AcceptedPayment | internal/services/importer/processors/payments.go:147-194 | an accepted row becomes an unconfirmed payment under the row's id, for the resolved debt and user, with the normalized non-zero amount and a date at midnight |
| Payments.UserAccepted | internal/services/importer/processors/payments.go:110-194 | past the debt checks an accepted row carries the resolved user and the given debt, leaving the debt cache alone |
| Payments.FinishAccepted | internal/services/importer/processors/payments.go:147-194 | a row with a strict date and a non-zero amount becomes the payment with those values, unconfirmed |
| Payments.PrePassCounts | internal/services/importer/processors/payments.go:69-195 | in the first pass every row is either logged failed or prepared, never both |
| Payments.PrePassNext | internal/services/importer/processors/payments.go:69-195 | the first pass over one more row is the pass so far advanced by the verdict on that row |
| Payments.AdvanceCounts | internal/services/importer/processors/payments.go:69-195 | one row of the first pass adds exactly one failed item or one prepared row |
| Payments.ResultsFacts | internal/services/importer/processors/payments.go:215-237 | the result loop logs one item per prepared row, in order: failed with CreateBatch's error at that index, done with no error otherwise |
| Payments.OneItemPerRow | internal/services/importer/processors/payments.go:69-237 | a batch logs exactly one item per row across the two loops |
| Payments.PaymentsProcessor.constructor | internal/services/importer/processors/payments.go:16-21 | a processor starts with the given dependencies and repositories, nothing sent and no debt queried |
| Payments.PaymentsProcessor.JudgeUser | internal/services/importer/processors/payments.go:110-194 | the user checks of one row give the verdict and caches of `UserPart` |
| Payments.PaymentsProcessor.JudgeOne | internal/services/importer/processors/payments.go:69-194 | the checks of one row give the verdict, caches and queries of `JudgeRow` |
| Payments.PaymentsProcessor.PreRow | internal/services/importer/processors/payments.go:69-195 | one pass of the first loop moves the state from the prefix before row i to the prefix through it |
| Payments.PaymentsProcessor.RunPrePass | internal/services/importer/processors/payments.go:69-195 | the first loop's prepared rows, queries, caches and failed items are those of the first pass over the whole batch |
| Payments.PaymentsProcessor.LogResults | internal/services/importer/processors/payments.go:215-237 | the audit collection grows by the items of the result loop |
| Payments.PaymentsProcessor.LogResult | internal/services/importer/processors/payments.go:217-236 | a prepared row is logged failed with its CreateBatch error, or done |
| Payments.PaymentsProcessor.ProcessBatch | internal/services/importer/processors/payments.go:25-249 | missing dependencies fail with nothing changed; a batch with no prepared row logs only the failures and leaves the record status; otherwise the payments are created in one batch, one item is logged per row, and the record is marked done; the error is always nil past the dependency check |
| ExecutiveDocuments.BoolWord | internal/services/importer/processors/executive_documents.go:113-123 | blank text and the false words read false; the true words and every other text read true |
| ExecutiveDocuments.BoolLoose | internal/services/importer/processors/executive_documents.go:111-124 | a cell reads true exactly when, trimmed and lower-cased, it is neither blank nor one of the false words |
| ExecutiveDocuments.LowerCharIdempotent | internal/services/importer/processors/executive_documents.go:112 | lower-casing a lower-cased letter changes nothing |
| Text.LowerCharKazakh | internal/services/importer/processors/agreements.go:156 | the eight Kazakh Cyrillic capitals and Latin-1 capitals fold to their small letters, and a caseless sign is kept |
| ExecutiveDocuments.ToLowerIdempotent | internal/services/importer/processors/executive_documents.go:112 | lower-casing lower-cased text changes nothing |
| ExecutiveDocuments.BoolLooseIgnoresCase | internal/services/importer/processors/executive_documents.go:111-124 | a cell and its lower-cased form read the same |
| ExecutiveDocuments.DocsOf | internal/services/importer/processors/executive_documents.go:74-94 | the documents stored are those of the rows kept, one each, in order |
| ExecutiveDocuments.LinkDebtFacts | internal/services/importer/processors/executive_documents.go:50-62 | a document gets a debt id exactly when the number (spaces removed) resolves, with no warning then; otherwise exactly one warning — missing number, not found, or lookup error — and the document is still built |
| ExecutiveDocuments.UnknownDebtTwice | internal/services/importer/processors/helpers.go:120-132 | a number with no debt is reported as a lookup error the first time and as not found afterwards, the miss being cached as nil; only the first asks the database |
| ExecutiveDocuments.ProcessRowFacts | internal/services/importer/processors/executive_documents.go:44-101 | one row gives one item for its id and payload; a document is stored exactly when the item is done; a row without a type fails with "missing executive_document_type" after its debt lookup; a done item carries the warnings joined with "; " |
| ExecutiveDocuments.AdvanceFacts | internal/services/importer/processors/executive_documents.go:44-101 | one row adds one item, under the next id, keeping the earlier ones, and stores at most one document |
| ExecutiveDocuments.ProcessRowItem | internal/services/importer/processors/executive_documents.go:66-100 | the item of a row is failed or done, for the row's id and payload |
| ExecutiveDocuments.RunFacts | internal/services/importer/processors/executive_documents.go:44-101 | the loop from any state logs one item per row in row order under consecutive ids, keeps the earlier items, and stores at most one document per row |
| ExecutiveDocuments.RunRowsFacts | internal/services/importer/processors/executive_documents.go:44-101 | over a batch the k-th item is for the k-th row under the k-th fresh id, and at most one document per row is stored |
| ExecutiveDocuments.ExecDocsProcessor.constructor | internal/services/importer/processors/executive_documents.go:16-19 | a processor starts with the given dependencies and tables, no query sent |
| ExecutiveDocuments.ExecDocsProcessor.Link | internal/services/importer/processors/executive_documents.go:50-62 | the debt link of a row, its warnings and the cache afterwards are those of `LinkDebt` |
| ExecutiveDocuments.ExecDocsProcessor.Row | internal/services/importer/processors/executive_documents.go:44-101 | one row stores its document when it has one and logs its item, as `ProcessRow` says |
| ExecutiveDocuments.ExecDocsProcessor.Keep | internal/services/importer/processors/executive_documents.go:94-100 | a created document is stored and a done item with the row's warnings logged |
| ExecutiveDocuments.ExecDocsProcessor.RunLoop | internal/services/importer/processors/executive_documents.go:44-101 | the documents, queries and items after the loop are those of `Run` over the batch, and the record status is unchanged |
| ExecutiveDocuments.ExecDocsProcessor.NextRow | internal/services/importer/processors/executive_documents.go:44-101 | one pass of the loop moves the state by one row, as `Advance` says |
| ExecutiveDocuments.ExecDocsProcessor.ProcessBatch | internal/services/importer/processors/executive_documents.go:23-109 | missing dependencies fail with nothing changed; otherwise every row is handled, the record is marked done whatever the rows gave, and nil is returned |
| Debtors.ParseDate | internal/services/importer/processors/debtors.go:198-210 | a blank cell gives no date |
| Debtors.ParseDateLayouts | internal/services/importer/processors/debtors.go:203-209 | a date comes from the first of the four layouts, in order, that accepts the trimmed cell |
| Debtors.ParseFloat | internal/services/importer/processors/debtors.go:212-222 | a blank cell gives no amount |
| Debtors.ParseFloatDecimalComma | internal/services/importer/processors/debtors.go:217 | the text handed to the float parser is the trimmed cell with every comma turned into a point |
| Debtors.RowLevelCount | internal/services/importer/processors/debtors.go:46-187 | the row-level items of a sequence are no more than its items |
| Debtors.RowLevelCountAppend | internal/services/importer/processors/debtors.go:46-187 | row-level items are counted additively over concatenation |
| Debtors.NoRowLevel | internal/services/importer/processors/debtors.go:96-172 | items none of which is row-level count zero |
| Debtors.DebtStepFacts | internal/services/importer/processors/debtors.go:76-101 | a debt failure is logged under "debts" and only the debts table changes otherwise; without a repository or a debt number nothing happens; a debt the database takes is stored under its number for the row's debtor |
| Debtors.AddressOneFacts | internal/services/importer/processors/debtors.go:112-127 | one address cell writes only the addresses table and may add one failed "addresses" item; the debtors table and the counters stay |
| Debtors.AddressFoldFacts | internal/services/importer/processors/debtors.go:103-128 | the three address cells write only the addresses table and add only failed "addresses" items |
| Debtors.PhoneOneFacts | internal/services/importer/processors/debtors.go:140-158 | one phone cell writes only the phones table and may add one failed "phones" item |
| Debtors.PhoneFoldFacts | internal/services/importer/processors/debtors.go:130-159 | the three phone cells write only the phones table and add only failed "phones" items |
| Debtors.ContactStepFacts | internal/services/importer/processors/debtors.go:161-173 | the contact-person phones write only their tables and may add one failed "contact_person_phones" item |
| Debtors.WritesFacts | internal/services/importer/processors/debtors.go:76-173 | the fan-out writes add only failed items of the four fan-out model types and leave the debtors table and the counters alone |
| Debtors.FanOutFacts | internal/services/importer/processors/debtors.go:76-187 | the fan-out ends with one done item under the debtor's id, after failed fan-out items only |
| Debtors.MissingIin | internal/services/importer/processors/debtors.go:47-52 | a blank IIN logs one failed "missing iin" item under a fresh id, counts a failure and writes nothing |
| Debtors.DebtorRejected | internal/services/importer/processors/debtors.go:68-74 | a debtor upsert error logs one failed item with the error, counts a failure and skips the fan-out |
| Debtors.DebtorAccepted | internal/services/importer/processors/debtors.go:54-187 | a stored debtor is the repository's upsert of the row's debtor, and the row's items end with one done "debtors" item under the stored debtor's id, after failed fan-out items only |
| Debtors.FanOutNotRowLevel | internal/services/importer/processors/debtors.go:98-170 | no fan-out failure is a row-level item |
| Debtors.CountFanOut | internal/services/importer/processors/debtors.go:96-187 | a row that went on adds exactly one row-level item, its done item |
| Debtors.RowStepCases | internal/services/importer/processors/debtors.go:46-187 | a row is either skipped at the debtor step or goes through the fan-out |
| Debtors.DebtorStepItems | internal/services/importer/processors/debtors.go:47-74 | the debtor step adds one row-level failed item and a failure when it skips the row, and counts a success otherwise |
| Debtors.RowStepCounts | internal/services/importer/processors/debtors.go:46-187 | each row logs exactly one row-level item and moves exactly one counter: success when its last item is the done item, failed otherwise |
| Debtors.RowsAddUp | internal/services/importer/processors/debtors.go:37-190 | over the batch success + failed equals the number of rows |
| Debtors.NoFanOutWithoutRepos | internal/services/importer/processors/debtors.go:76-173 | without any fan-out repository a row touches only the debtors table and the log, and logs exactly one item |
| Debtors.DebtorsProcessor.constructor | internal/services/importer/processors/debtors.go:18-26 | a processor starts with the given dependencies, repositories and tables, with the debtor and debt builders of the row |
| Debtors.DebtorsProcessor.Fail | internal/services/importer/processors/debtors.go:50 | a failure is logged under a fresh id |
| Debtors.DebtorsProcessor.DebtorPart | internal/services/importer/processors/debtors.go:47-74 | the IIN check and the debtor upsert of one row do what `DebtorStep` says, and the debtor is returned exactly when the row goes on |
| Debtors.DebtorsProcessor.DebtPart | internal/services/importer/processors/debtors.go:76-101 | the debt write of one row does what `DebtStep` says |
| Debtors.DebtorsProcessor.AddressCell | internal/services/importer/processors/debtors.go:112-127 | one address cell does what `AddressOne` says |
| Debtors.DebtorsProcessor.AddressPart | internal/services/importer/processors/debtors.go:103-128 | the address cells of one row, in order, do what `AddressStep` says |
| Debtors.PhoneOneAsWrittenFails | internal/services/importer/processors/debtors.go:140-158 | with the phones INSERT as written, a phone cell of a stored debtor that holds a digit stores no phone and logs exactly one failed "phones" item carrying the syntax error |
| Debtors.DebtorsProcessor.PhoneCell | internal/services/importer/processors/debtors.go:140-158 | one phone cell does what `PhoneOne` says |
| Debtors.DebtorsProcessor.PhonePart | internal/services/importer/processors/debtors.go:130-159 | the phone cells of one row, in order, do what `PhoneStep` says |
| Debtors.DebtorsProcessor.ContactPart | internal/services/importer/processors/debtors.go:161-173 | the contact-person phones of one row do what `ContactStep` says |
| Debtors.DebtorsProcessor.WritesPart | internal/services/importer/processors/debtors.go:76-173 | the four fan-out writes of a stored debtor do what `Writes` says |
| Debtors.DebtorsProcessor.FanOutPart | internal/services/importer/processors/debtors.go:76-187 | the fan-out and the done item of a stored debtor do what `FanOut` says |
| Debtors.DebtorsProcessor.NextRow | internal/services/importer/processors/debtors.go:46-187 | one row does what `RowStep` says and moves success when its debtor was stored, failed otherwise |
| Debtors.DebtorsProcessor.RunRows | internal/services/importer/processors/debtors.go:46-188 | the loop does what `Run` says over the batch, and its counters add up to the number of rows |
| Debtors.DebtorsProcessor.ProcessBatch | internal/services/importer/processors/debtors.go:30-196 | missing dependencies fail with nothing changed; otherwise every row is processed, the record is marked done whatever the rows gave, and nil is returned |
| Actions.ActionsOf | internal/services/importer/processors/actions.go:115-125 | one action per kept row, in order |
| Actions.Outcomes | internal/services/importer/processors/actions.go:141-177 | one item per kept row, in order |
| Actions.RejectedRow | internal/services/importer/processors/actions.go:55-87 | a blank debt number fails with "missing debt_number" before any lookup; a number the lookup errs on or does not know fails with "debt not found: N", the error in parentheses when there is one, and only the debt is looked up; no row is kept |
| Actions.KeptRow | internal/services/importer/processors/actions.go:89-131 | a debt number that resolves keeps the row under its id with that debt whatever the user and status give; the warnings are the user's then the status's, at most two, none exactly when both resolve |
| Actions.RowShape | internal/services/importer/processors/actions.go:54-132 | one row yields exactly one of a failed item and a kept row; the item is for the row's payload |
| Actions.AdvanceFacts | internal/services/importer/processors/actions.go:54-132 | one row adds one failed item or one kept row, keeps what was there, and uses one more id |
| Actions.RunFacts | internal/services/importer/processors/actions.go:54-132 | every row lands among the failed items or the kept rows, never both; earlier entries are kept and the rejected rows' items are all failures |
| Actions.AllQueued | internal/services/importer/processors/actions.go:115-125 | every action the loop builds carries a debt, so all of them are queued for insertion |
| Actions.InsertKept | internal/services/importer/processors/actions.go:139 | the actions table grows by the kept rows' actions, in row order, up to the first whose insert fails, and that failure is the error |
| Actions.OutcomesFacts | internal/services/importer/processors/actions.go:139-177 | after the insert every kept row is logged under its own id and payload: all failed with the insert's error when there is one, all done with their warnings joined by "; " otherwise |
| Actions.OneItemPerRow | internal/services/importer/processors/actions.go:54-177 | a batch yields exactly one item per row: the loop's failures and one outcome per kept row |
| Actions.ActionsProcessor.constructor | internal/services/importer/processors/actions.go:16-22 | a processor starts with the given dependencies, repositories and tables, no query sent |
| Actions.ActionsProcessor.LinkUser | internal/services/importer/processors/actions.go:91-100 | a blank username warns "missing username -> user_id=NULL"; an unresolved one warns "username not found: U -> user_id=NULL"; a resolved one gives its id |
| Actions.ActionsProcessor.LinkStatus | internal/services/importer/processors/actions.go:102-111 | a blank status warns "missing status -> debt_status_id=NULL"; an unresolved one warns "status not found: S -> debt_status_id=NULL"; a resolved one gives its id |
| Actions.ActionsProcessor.Judge | internal/services/importer/processors/actions.go:55-131 | the checks of one row give the failure of a rejected row or the row kept, as `ProcessRow` says |
| Actions.ActionsProcessor.Keep | internal/services/importer/processors/actions.go:89-131 | a row with a debt has its user and status looked up and is kept under a fresh id |
| Actions.ActionsProcessor.RunLoop | internal/services/importer/processors/actions.go:54-132 | the kept rows, queries and failed items after the loop are those of `Run` over the batch |
| Actions.ActionsProcessor.NextRow | internal/services/importer/processors/actions.go:54-132 | one pass of the loop moves the state by one row, as `Advance` says |
| Actions.ActionsProcessor.LogOutcomes | internal/services/importer/processors/actions.go:141-177 | the audit collection grows by one outcome per kept row |
| Actions.ActionsProcessor.Flush | internal/services/importer/processors/actions.go:134-185 | without a kept row nothing more happens; otherwise one insert call, one item per kept row from its answer, and the record marked done |
| Actions.ActionsProcessor.ProcessBatch | internal/services/importer/processors/actions.go:26-186 | missing dependencies fail with nothing changed; otherwise every row is checked, the kept rows' actions are inserted in one call, the record is marked done only when some row was kept, and nil is returned |
| Agreements.GetOrCreateFacts | internal/services/importer/processors/agreements.go:155-174 | a cached key answers with no statement; otherwise the select, the insert and the second select are sent in that order, each only when the one before failed; the first id found is the answer and is cached; only when all three fail is there the error "agreement_type not found/created: " and the name |
| Agreements.FailureRetried | internal/services/importer/processors/agreements.go:173 | a failure is not cached: the next row naming the same type sends the three statements again |
| Agreements.CaseInsensitiveCache | internal/services/importer/processors/agreements.go:156-158 | names that differ only in case and surrounding spaces share one cache entry, so once one is known the other sends nothing and gets the same id |
| Agreements.UpsertAllSnoc | internal/repository/database/agreements_repo.go:21-63 | one more write applies the upsert to the table the earlier writes left |
| Agreements.UpsertAllKeeps | internal/repository/database/agreements_repo.go:21-40 | a batch of writes drops no agreement, and every row keeps the creation time it had, or has now if the batch created it |
| Agreements.UpsertAllUntouched | internal/repository/database/agreements_repo.go:32-40 | a debt the batch does not write is left exactly as it was, present or absent |
| Agreements.UpsertAllWritten | internal/repository/database/agreements_repo.go:32-40 | a debt the batch writes ends with the last row written for it, updated at now, keeping its earlier creation time or now if it is new |
| Agreements.RejectedRow | internal/services/importer/processors/agreements.go:50-80 | a blank debt number, or one the lookup errs on or does not know, rejects the row before the user and the type are looked at, with "missing debt_number" or "debt not found: N" and the error in parentheses |
| Agreements.ReadyRow | internal/services/importer/processors/agreements.go:82-110 | a row with a known debt is ready whatever its user and type give; the warnings are the user's then the type's, at most two, and a failed type get-or-create is a warning carrying its error, never a rejection |
| Agreements.ConcludeFacts | internal/services/importer/processors/agreements.go:112-145 | the item of a row carries its id and payload; it is done exactly when the agreement is written, with the warnings joined by "; ", and a failed upsert logs its error |
| Agreements.AdvanceFacts | internal/services/importer/processors/agreements.go:47-146 | one row adds one item under the next id, keeping the earlier ones, and at most one written agreement |
| Agreements.RunFacts | internal/services/importer/processors/agreements.go:47-146 | the loop logs one item per row in row order under consecutive ids, keeps the earlier items, and the done items are exactly as many as the rows written |
| Agreements.OneItemPerRow | internal/services/importer/processors/agreements.go:45-148 | a batch logs one item per row, the k-th under the k-th fresh id, and success + failed equals the number of rows |
| Agreements.AgreementsProcessor.constructor | internal/services/importer/processors/agreements.go:17-22 | a processor starts with the given dependencies, repositories and tables, nothing sent |
| Agreements.AgreementsProcessor.GetOrCreateType | internal/services/importer/processors/agreements.go:155-174 | the answer, the cache afterwards and the statements sent are those of `GetOrCreate` |
| Agreements.AgreementsProcessor.LinkUser | internal/services/importer/processors/agreements.go:84-93 | a blank username warns "missing username -> user_id=NULL"; an unresolved one warns "username not found: U -> user_id=NULL"; a resolved one gives its id |
| Agreements.AgreementsProcessor.TypeOf | internal/services/importer/processors/agreements.go:95-104 | a blank type warns "missing agreement_type -> agreement_type_id=NULL"; a failed get-or-create warns "agreement_type upsert failed: " and the error; otherwise the id |
| Agreements.AgreementsProcessor.Judge | internal/services/importer/processors/agreements.go:50-110 | the checks of one row give the rejection or the ready agreement of `CheckRow` |
| Agreements.AgreementsProcessor.UpdateOrCreate | internal/repository/database/agreements_repo.go:21-63 | a failing statement returns its error and leaves the table; otherwise the table is the upsert of the agreement |
| Agreements.AgreementsProcessor.Settle | internal/services/importer/processors/agreements.go:112-145 | the upsert, when the row is ready, and the row's one item |
| Agreements.AgreementsProcessor.NextRow | internal/services/importer/processors/agreements.go:47-146 | one pass of the loop moves the state by one row, as `Advance` says |
| Agreements.AgreementsProcessor.RunLoop | internal/services/importer/processors/agreements.go:41-146 | with a fresh type cache, the table, statements and items after the loop are those of `Run` over the batch |
| Agreements.AgreementsProcessor.ProcessBatch | internal/services/importer/processors/agreements.go:26-153 | missing dependencies fail with nothing changed; otherwise every row gets one item, the agreements are written one by one, the record is marked done, and nil is returned |
| UserPlans.QuantityFacts | internal/services/importer/processors/user_plans.go:88-104 | a blank quantity is "0"; only a non-blank cell can be bad; an accepted quantity fits in an int64 and has no space, comma or point left |
| UserPlans.RemoveCharSubset | internal/services/importer/processors/user_plans.go:92 | removing one separator keeps the others absent |
| UserPlans.QuantityOfPrinted | internal/services/importer/processors/user_plans.go:88-104 | a printed quantity in the int64 range reads back as itself |
| UserPlans.RejectedRow | internal/services/importer/processors/user_plans.go:50-125 | the checks run in order: a blank username fails with "missing username" and no query; an unresolved one with "username not found: U", the error in parentheses when there is one; then "bad user_plan_quantity"; then a non-blank end date that does not parse, "bad end_date" |
| UserPlans.ParseDateArgument | internal/services/importer/processors/user_plans.go:111-112 | the strict date parser trims its argument, so a trimmed cell reads as the cell |
| UserPlans.ReadyRow | internal/services/importer/processors/user_plans.go:83-135 | a row that passes every check is ready with the plan of its user: the normalized amount, the quantity ("0" when blank) and the end date (none when blank) |
| UserPlans.ConcludeFacts | internal/services/importer/processors/user_plans.go:130-161 | the item carries the row's id and payload; it is done, with no text, exactly when the plan is saved, and only then does the table change, to the upsert of the plan |
| UserPlans.AdvanceFacts | internal/services/importer/processors/user_plans.go:43-162 | one row adds one item under the next id and keeps the earlier ones |
| UserPlans.RunFacts | internal/services/importer/processors/user_plans.go:43-162 | the loop logs one item per row in row order under consecutive ids and keeps the earlier items |
| UserPlans.RunSettled | internal/services/importer/processors/user_plans.go:43-162 | every item the loop logs is done or failed |
| UserPlans.OneItemPerRow | internal/services/importer/processors/user_plans.go:40-167 | a batch logs one item per row in row order, the k-th under the k-th fresh id, each done or failed, so success + failed equals the number of rows |
| UserPlans.UserPlansProcessor.constructor | internal/services/importer/processors/user_plans.go:18-22 | a processor starts with the given dependencies, repositories and tables |
| UserPlans.UserPlansProcessor.Judge | internal/services/importer/processors/user_plans.go:50-125 | the checks of one row give the rejection or the ready plan, with the user queries they send |
| UserPlans.UserPlansProcessor.Settle | internal/services/importer/processors/user_plans.go:130-161 | the save, when the row is ready, and the row's one item |
| UserPlans.UserPlansProcessor.NextRow | internal/services/importer/processors/user_plans.go:43-162 | one pass of the loop moves the state by one row, as `Advance` says |
| UserPlans.UserPlansProcessor.RunLoop | internal/services/importer/processors/user_plans.go:43-162 | the table, user queries and items after the loop are those of `Run` over the batch |
| UserPlans.UserPlansProcessor.ProcessBatch | internal/services/importer/processors/user_plans.go:26-177 | missing dependencies fail with nothing changed; otherwise every row gets one item, the ready plans are saved one by one, the record is marked done, and nil is returned |
| EnforcementProceedings.Statements | internal/services/importer/processors/enforcement_proceedings.go:113-126 | one INSERT per kept row, in order |
| EnforcementProceedings.ProceedingOfFacts | internal/services/importer/processors/enforcement_proceedings.go:84-101 | a proceeding carries the row's debt and now; the serial number, bailiff name and region and AIS OIP status are NULL when blank and trimmed otherwise; a blank amount is "0"; a blank start date is NULL and any date is at midnight |
| EnforcementProceedings.StatementsAt | internal/services/importer/processors/enforcement_proceedings.go:113-126 | the k-th INSERT writes the proceeding of the k-th kept row into the target table |
| EnforcementProceedings.ScreenFacts | internal/services/importer/processors/enforcement_proceedings.go:68-105 | a blank number (spaces removed) fails with "missing debt_number" and no query; a number the lookup errs on or finds nothing for fails with "debt not found: N", the error in parentheses when there was one; a found number keeps the row with its debt |
| EnforcementProceedings.RepeatedBadNumber | internal/services/importer/processors/enforcement_proceedings.go:74-82 | the lookup caches nil on an error, so a number that failed with an error fails again later with the bare "debt not found: N" and no query |
| EnforcementProceedings.RunFacts | internal/services/importer/processors/enforcement_proceedings.go:67-106 | each row of the first pass adds one failure or one kept row, never both; the failures are numbered on from where they were, and only they use up ids |
| EnforcementProceedings.ResultsFacts | internal/services/importer/processors/enforcement_proceedings.go:131-141 | one item per answer: the k-th carries the k-th fresh id and the k-th kept row's payload; it is done, with no text, exactly when the k-th statement succeeded, and otherwise failed with that statement's error |
| EnforcementProceedings.OneItemPerRow | internal/services/importer/processors/enforcement_proceedings.go:67-141 | a batch logs one item per row in all, the failures of the first pass and one per kept row, with no repeated id |
| EnforcementProceedings.AfterFirstFailure | internal/services/importer/processors/enforcement_proceedings.go:128-141 | once an INSERT of the batch fails, every later kept row is logged failed with that error, and the table gains only the rows before it |
| EnforcementProceedings.ResultsSnoc | internal/services/importer/processors/enforcement_proceedings.go:132-141 | the results grow by one item per answer |
| EnforcementProceedings.EnforcementProceedingsProcessor.constructor | internal/services/importer/processors/enforcement_proceedings.go:19-25 | a processor starts with the given dependencies, table names and tables, nothing sent and no debt queried |
| EnforcementProceedings.EnforcementProceedingsProcessor.Target | internal/services/importer/processors/enforcement_proceedings.go:44 | the INSERTs go to the configured table, or "enforcement_proceedings" when it is blank |
| EnforcementProceedings.EnforcementProceedingsProcessor.DebtsTarget | internal/services/importer/processors/enforcement_proceedings.go:45 | the debts are looked up in the configured table, or "debts" when it is blank |
| EnforcementProceedings.EnforcementProceedingsProcessor.Screen | internal/services/importer/processors/enforcement_proceedings.go:68-82 | the verdict on a row's number and the cache afterwards are those of the batch-cached debt lookup |
| EnforcementProceedings.EnforcementProceedingsProcessor.NextRow | internal/services/importer/processors/enforcement_proceedings.go:67-106 | one row of the first pass moves the state as `Advance` says |
| EnforcementProceedings.EnforcementProceedingsProcessor.FirstPass | internal/services/importer/processors/enforcement_proceedings.go:67-106 | the kept rows, queries and failures after the first pass are those of `Run` over the batch |
| EnforcementProceedings.EnforcementProceedingsProcessor.SendOne | internal/services/importer/processors/enforcement_proceedings.go:133-140 | `br.Exec()` answers with the earlier failure's error if there was one, else with the statement's own outcome; the row is logged under a fresh id, and added to the table only on success |
| EnforcementProceedings.EnforcementProceedingsProcessor.SendNext | internal/services/importer/processors/enforcement_proceedings.go:132-141 | the i-th answer is appended to what the first i answers did |
| EnforcementProceedings.EnforcementProceedingsProcessor.SendAll | internal/services/importer/processors/enforcement_proceedings.go:132-141 | the answers are read in order: the items are `Results` and the table gains `Inserted` |
| EnforcementProceedings.EnforcementProceedingsProcessor.SendBatch | internal/services/importer/processors/enforcement_proceedings.go:113-141 | the INSERTs for the kept rows are sent at once and their answers logged |
| EnforcementProceedings.EnforcementProceedingsProcessor.ProcessBatch | internal/services/importer/processors/enforcement_proceedings.go:29-149 | missing dependencies fail with "postgres not available" or "mongo not available" and nothing changed; with no kept row the call ends after the failures without touching the record; otherwise one INSERT per kept row, one item per answer, the record marked done, and nil |
| Users.EnsureBcryptFacts | internal/services/importer/processors/users.go:162-171 | the flag is true exactly for a password with a $2a$, $2b$ or $2y$ prefix and at least 60 bytes, which is kept; any other password is replaced by its hash, or kept when hashing fails |
| Users.EnsureBcryptStable | internal/services/importer/processors/users.go:162-171 | a password whose hash looks hashed is hashed at most once: passing the result through again keeps it |
| Users.ShortPasswordHashed | internal/services/importer/processors/users.go:163 | a password shorter than 60 bytes is never taken for a hash, whatever its prefix |
| Users.ScreenFacts | internal/services/importer/processors/users.go:63-78 | the first blank of first_name, username and password, in that order, names the failure; a row with all three is kept with them trimmed |
| Users.Statements | internal/services/importer/processors/users.go:126-136 | one INSERT per kept row, in order |
| Users.Results | internal/services/importer/processors/users.go:141-151 | one item per answer |
| Users.UserOfFacts | internal/services/importer/processors/users.go:80-118 | the user written for a kept row has the three required cells trimmed, the optional ones NULL when blank, the email lower-cased, the password through `ensureBcrypt`, and the time of the batch |
| Users.WarningsFacts | internal/services/importer/processors/users.go:91-103 | the role warning is there exactly for a non-blank role, the department warning for a non-blank department, the bcrypt warning for a password that did not look hashed, in that order |
| Users.StatementsAt | internal/services/importer/processors/users.go:126-136 | the k-th statement inserts the user of the k-th kept row into "users" |
| Users.RunFacts | internal/services/importer/processors/users.go:60-119 | each row of the first pass adds one failure or one kept row, never both; the failures are numbered on from where they were, and only they use up ids |
| Users.RunKeepsScreened | internal/services/importer/processors/users.go:60-119 | every kept row passed the three checks |
| Users.ResultsFacts | internal/services/importer/processors/users.go:141-151 | the k-th item carries the k-th fresh id and the k-th kept row's payload; it is done with the row's warnings joined by "; " exactly when the k-th statement succeeded, and otherwise failed with that statement's error |
| Users.OneItemPerRow | internal/services/importer/processors/users.go:60-151 | a batch logs one item per row in all, the failures of the first pass and one per kept row, with no repeated id |
| Users.AfterFirstFailure | internal/services/importer/processors/users.go:138-151 | once an INSERT of the batch fails, every later kept row is logged failed with that error, and the table gains only the users before it |
| Users.ResultsSnoc | internal/services/importer/processors/users.go:142-151 | the results grow by one item per answer |
| Users.UsersProcessor.constructor | internal/services/importer/processors/users.go:18-22 | a processor starts with the given dependencies, nothing inserted and nothing sent |
| Users.UsersProcessor.NextRow | internal/services/importer/processors/users.go:60-119 | one row of the first pass moves the state as `Advance` says |
| Users.UsersProcessor.FirstPass | internal/services/importer/processors/users.go:60-119 | the kept rows and failures after the first pass are those of `Run` over the batch |
| Users.UsersProcessor.SendOne | internal/services/importer/processors/users.go:143-150 | `br.Exec()` answers with the earlier failure's error if there was one, else with the statement's own outcome; the row is logged under a fresh id, and its user added to the table only on success |
| Users.UsersProcessor.SendNext | internal/services/importer/processors/users.go:142-151 | the i-th answer is appended to what the first i answers did |
| Users.UsersProcessor.SendAll | internal/services/importer/processors/users.go:138-151 | the answers are read in order: the items are `Results` and the table gains `Inserted` |
| Users.UsersProcessor.ProcessBatch | internal/services/importer/processors/users.go:26-158 | missing dependencies fail with nothing changed; with no kept row the call ends after the failures without touching the record; otherwise one INSERT per kept row into "users", one item per answer, the record marked done, and nil |
| UpdateDebts.Assignments | internal/services/importer/processors/update_debts.go:65-96 | no more assignments than columns |
| UpdateDebts.SetParts | internal/services/importer/processors/update_debts.go:59-63 | one SET fragment per assignment |
| UpdateDebts.ArgsOf | internal/services/importer/processors/update_debts.go:59-63 | one argument per assignment |
| UpdateDebts.Items | internal/services/importer/processors/update_debts.go:48-125 | one item per row |
| UpdateDebts.AppliedFacts | internal/services/importer/processors/update_debts.go:66-96 | a blank cell sets nothing; a user or counterparty that is not a UUID is dropped without a failure; a non-blank end date always sets end_date, to NULL when it does not parse |
| UpdateDebts.AssignmentsBelow | internal/services/importer/processors/update_debts.go:65-96 | columns ranked below r give assignments ranked below r |
| UpdateDebts.AssignmentsOrdered | internal/services/importer/processors/update_debts.go:65-96 | the assignments follow the order of the columns, with no column twice |
| UpdateDebts.AssignmentsFrom | internal/services/importer/processors/update_debts.go:65-96 | every assignment is of one of the columns, with the value the row gives it |
| UpdateDebts.AssignmentsPresent | internal/services/importer/processors/update_debts.go:65-96 | every column the row gives a value appears among the assignments, with that value |
| UpdateDebts.RowAssignments | internal/services/importer/processors/update_debts.go:65-96 | the SET list of a row is in the fixed column order, each column at most once, and a column is there, with its value, exactly when the row gives it one |
| UpdateDebts.StatementFacts | internal/services/importer/processors/update_debts.go:59-107 | the j-th SET fragment names the j-th column on $(j+1) and argument j is its value; updated_at takes $(k+1) and the time, the WHERE number $(k+2) and the debt number, and there are exactly k + 2 arguments |
| UpdateDebts.PlanFacts | internal/services/importer/processors/update_debts.go:49-107 | a row is refused before any SQL exactly when its number (spaces removed) is blank, or when no column applies; otherwise its UPDATE sets the row's assignments and names its number |
| UpdateDebts.NothingApplies | internal/services/importer/processors/update_debts.go:98-101 | no assignment at all exactly when every column's cell is blank, or an invalid user or counterparty |
| UpdateDebts.ItemOfFacts | internal/services/importer/processors/update_debts.go:50-124 | the item of a row has model id "", the debts table as model type and the row as payload; it is done exactly when the UPDATE ran and affected a row; otherwise failed with "missing debt_number", "no updatable fields found", the statement's error, or "debt not found: N" |
| UpdateDebts.ItemsEach | internal/services/importer/processors/update_debts.go:48-125 | the k-th item is that of the k-th row |
| UpdateDebts.SentFacts | internal/services/importer/processors/update_debts.go:109 | a statement is executed for every row that gets as far, and for no other |
| UpdateDebts.ItemsSnoc | internal/services/importer/processors/update_debts.go:48-125 | one more row adds its item, and its statement when it has one |
| UpdateDebts.AssignmentsSnoc | internal/services/importer/processors/update_debts.go:65-96 | one more column adds its assignment when the row gives it a value |
| UpdateDebts.SetBuilder.constructor | internal/services/importer/processors/update_debts.go:55-57 | the SET list starts empty, with the next placeholder $1 |
| UpdateDebts.SetBuilder.AppendSet | internal/services/importer/processors/update_debts.go:59-63 | `appendSet` adds the fragment col=$argIdx and the value, and moves to the next placeholder |
| UpdateDebts.UpdateDebtsProcessor.constructor | internal/services/importer/processors/update_debts.go:19-24 | a processor starts with the given dependencies and table, nothing sent |
| UpdateDebts.UpdateDebtsProcessor.Environment | internal/services/importer/processors/update_debts.go:43 | the debts table is the configured one, or "debts" when it is blank |
| UpdateDebts.UpdateDebtsProcessor.ApplyColumn | internal/services/importer/processors/update_debts.go:66-96 | one block of the SET list adds the column's assignment exactly when the row gives it a value |
| UpdateDebts.UpdateDebtsProcessor.BuildSets | internal/services/importer/processors/update_debts.go:55-96 | the SET list of a row is the assignments of the nine columns, in the fixed order |
| UpdateDebts.UpdateDebtsProcessor.Judge | internal/services/importer/processors/update_debts.go:49-107 | what a row comes to before the database is asked: a refusal with its reason, or the statement |
| UpdateDebts.UpdateDebtsProcessor.NextRow | internal/services/importer/processors/update_debts.go:49-124 | one row carries out its plan and logs its item |
| UpdateDebts.UpdateDebtsProcessor.RowAt | internal/services/importer/processors/update_debts.go:48-125 | row i is handled on top of what the rows before it did |
| UpdateDebts.UpdateDebtsProcessor.RunRows | internal/services/importer/processors/update_debts.go:46-125 | the statements and items after the loop are those of the rows in order, and `updated` counts the rows done |
| UpdateDebts.UpdateDebtsProcessor.ProcessBatch | internal/services/importer/processors/update_debts.go:28-133 | missing dependencies fail with nothing changed; otherwise every row in order, then the record marked done whatever the rows came to, even for an empty batch, and nil |

## Left out

- HTTP and object-storage I/O (`http.go`, `s3.go`, the handlers, `server.go`, `cmd/main.go`, `config.go` and the connection files) is not modelled: an opener is a function returning a stream outcome.
- The background goroutine started for an import and the server shutdown are concurrency and are not modelled.
- The SHA-256 digest of the stream is a parameter; stream position, the tee and the digest of a partially consumed stream are not modelled, and after a reader fallback the second reader is given its own outcome.
- CSV record parsing and excelize workbook decoding are not modelled: a reader is a sequence of rows or row errors.
- `url.Parse`, `path.Clean` and `mime.ParseMediaType` are not modelled beyond the extension and media-type strings they yield.
- `time.Parse` layouts, `endOfMonth`, `fmt.Sscanf`, `strconv.ParseFloat` and `parseFloatPtr`/`parseDate` in `debtors.go` are uninterpreted parameters; only the order in which layouts are tried is modelled.
- bcrypt hashing and uuid generation are parameters (a `hash` function, an `IdSource` counter with distinct texts for `uuid.NewString`, and a separate family of texts for the database's `gen_random_uuid()`, which never meets the first); only the bcrypt-prefix check is modelled.
- JSON marshalling of audit payloads is not modelled: a payload is the row itself.
- `time.Now` and the database's `NOW()` are a `now` parameter; `log.Printf` output, and the success/updated/inserted counters that are only logged, are not modelled.
- SQL and Mongo engine semantics are not modelled: every table is a map keyed by its conflict target, and the outcome of each statement comes from a fault map (for an audit `InsertOne`, the documents the server refuses, so each insert succeeds or fails on its own; for the import-record update, the `_id` filters whose `UpdateOne` fails; for the token lookup, the set of failing queries); the two single-row query oracles `Db.Query` and `Distribution.Answer` stand for the database and are not code of this service; of the implicit transaction of a pgx batch, the answers are modelled (from the first failing statement on, every later statement answers with that error and writes nothing, `Proc.BatchAnswersFacts`), but the rollback of the statements before the failure is not, so a failure leaves the earlier writes in place.
- `GetIDByNumber` and the payments repository's `CreateBatch` are oracles: their answers are parameters.
- The thin single-statement repositories (`agreements_repo.go` apart from the upserts the agreements processor calls, `enforcement_proceedings_repo.go`, `executive_documents_repo.go`, `payments_repo.go`, `workplace_repo.go`) are modelled only as the table write they perform.
- The duplicate files `ecutive_documents.go`, `importitems.go` and `payment_repo.go` cannot be compiled beside their twins; the wired variants are modelled.
- `records.go`, `middleware.go`, `noop.go` and the `models/*.go` structs are not modelled beyond the datatypes the processors need; `CheckDeps` is modelled as the availability of the Postgres pool and the Mongo database.
- The batch slice in `service.go` is reused (`batch[:0]`) after each call; the model passes batches as values, so aliasing of a batch kept by a processor is not modelled.
- The per-batch caches are values passed into and returned from each step rather than maps shared by reference.
- Text.LowerChar: folds only the capitals of Basic Latin (A-Z), Latin-1 (U+00C0-U+00DE except U+00D7), Latin Extended-A (U+0100-U+017F) and Cyrillic with its supplement (U+0400-U+052F, the Kazakh letters included); capitals of other scripts (Greek, Armenian, Latin Extended-B and beyond) are kept as they are, where Go's `strings.ToLower` folds them. This reaches `Agreements.CaseInsensitiveCache`, `Users.UserOfFacts` and `ExecutiveDocuments.BoolLoose`. No Unicode normalisation is modelled.
- Proc.BatchAnswers: its contract states only the length; what each answer is is stated by `Proc.BatchAnswersAt` and `Proc.BatchAnswersFacts`.
- Debtors.PhoneOne: a phone cell is saved through the corrected phones INSERT (`PhonesRepo.Save`, as `PhonesRepo.PhonesTable.SavePhones` runs it); with the INSERT as written in `phones_repo.go` every cell holding a digit returns the syntax error, logs one failed "phones" item and stores nothing, as `Debtors.PhoneOneAsWrittenFails` states of `Debtors.PhoneOneAsWritten` (see Findings).
- Debtors.DebtorsProcessor.PhoneCell: runs `Debtors.PhoneOne`, so it too models the corrected phones INSERT rather than the failing one `debtors.go` reaches.
- Debtors.DebtorsProcessor.PhonePart: the three phone cells of a row are saved through the corrected phones INSERT; as written, each of them that holds a digit adds a failed "phones" item instead.
- Ledger.InsertItem: whether an insert fails is decided by the document, so two identical documents in one run are both stored or both refused; the driver can fail any single call.
- Actions.ActionsOf: its contract states only the length; it is `Each` of `ActionOf` over the kept rows, read as such by `Actions.AllQueued` (every action built carries a debt) and `Actions.InsertKept` (the table grows by those actions up to the first failing insert).
- Actions.Outcomes: its contract states only the length; what each item holds is stated by `Actions.OutcomesFacts`.
- EnforcementProceedings.Statements: its contract states only the length; what each statement inserts is stated by `EnforcementProceedings.StatementsAt` and `EnforcementProceedings.ProceedingOfFacts`.
- Users.Statements: its contract states only the length; what each statement inserts is stated by `Users.StatementsAt`.
- Users.Results: its contract states only the length; what each item holds is stated by the processor's lemmas.
- The processors that look up debt statuses require a `DebtStatusesRepo` built with the allocated cache; with the constructor as written every such lookup panics (see Findings).

## Findings

| source | as written | input that shows it | evidently intended | confidence | as-written member | corrected member |
|---|---|---|---|---|---|---|
| internal/repository/database/debt_statuses_repo.go:14-37 | `NewDebtStatusesRepo` never makes the `cache` map, and `GetStatusBigint` writes to it after every query | any first lookup, e.g. of the status "active", whatever the database answers: the write to the nil map panics | the cache allocated in the constructor, as the other repositories do | not executed | Lookups.UnallocatedCachePanics | Lookups.AllocatedCacheCaches |
| internal/repository/database/phones_repo.go:38-52 | the INSERT lists a trailing comma after `created_at` and after `NOW()`, so the statement does not parse | a debtor row whose phone cell is "7": the first INSERT fails, the phone is not saved and the row logs a failed "phones" item | the same INSERT without the trailing commas | not executed | PhonesRepo.AsWrittenExample | PhonesRepo.InsertAllStores |
