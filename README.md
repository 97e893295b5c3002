# RelayOps core in Dafny

RelayOps keeps a canonical store of amateur-radio messages (Winlink, PAT). The store is a
SQLite file. Messages are composed, queued by tag, and sent through a transport. The state of
each message in PAT and Winlink Express is imported into the store, read-only on the backend
side. This project models that core and proves what it promises:

- the message store (`Store.MessageStore`, a class whose fields are the tables): schema
  migrations v1 to v3, message rows and their status updates, tag queueing, soft deletion, the
  three listings, external references, backend state, scopes and the deprecated PAT MID setter;
- the row/message/summary mapping and the listing queries (`StoreSchema`: WHERE, ORDER BY,
  LIMIT with the default of 25);
- the send loop of `ops.SendQueued` and of the `send` CLI command (`Dispatch`, `Cli.RunSend`),
  with the simulated transport (`Sim`, `Cli.SimTransportSend`);
- the pure helpers of the CLI (`Cli`): mode lists, sessions, tags and compose;
- the identity scope (`Identity`) and callsign validation (`Diagnostics`);
- the B2F encoder and MID generator of the PAT transport (`B2F`);
- the PAT mailbox importer with its `pat extract` dump parser (`PatImport`);
- the Winlink Express registry reader (`Registry`) and importer (`WinlinkImport`).

`Text` models the Go `strings` functions the code relies on: `TrimSpace` with Go's white-space
set, `ToUpper`/`ToLower`, `Split`/`Join`, `Contains`, `TrimRight`, `TrimSuffix` and UTF-8
length. `Wrappers` holds `Option` and `Result`.

Modelling conventions:

- Times are whole seconds (`nat`). 0 is Go's zero time.
- A storage-engine failure is a parameter `dbErr: Option<string>`. The loops take one oracle
  per record position for the failures they meet (`StoreFaults`).
- The clock, generated identifiers, environment variables, the JSON encodings, the date
  layouts, `pat extract`, MIME parsing and file reads are functions passed in through an
  `Environment` value.
- The store keeps its rows in a map from id to row, plus the ids in insertion (rowid) order, so
  listings are deterministic.
- An importer's effect is stated on a `Ledger` value (messages, order, references, backend
  states) by a specification function (`ImportAll`). The imperative loop is proved equal to it,
  and the properties are proved about the function.

Where the source files disagree with one another, the model follows the code that runs:

- `internal/core/message.go` declares neither `Status`, `UpdatedAt`, `SentAt`, `LastError` nor
  the transport/session/delivery metadata. The store, the send loop and the importers all use
  them, so they are part of `Core.Message`.
- `NewMessage` in `internal/core/message.go` sets only the id, subject, body, creation time and
  metadata. `Core.NewMessage` also makes the message a draft, which is what the store's test
  reads back (`internal/store/store_test.go:42-51`), and sets `updatedAt` to the creation time.
  Its tag slice is `nil`, as in Go. The importers start from an empty, non-`nil` slice.
- The simulated sender of `internal/transport/sim/sim.go` returns `("SIM-OK", nil)` or an
  error. The one in `cmd/relayops/main.go` returns only an error. Both are modelled, and
  `Cli.SimTransportAgrees` proves they fail on the same messages.
- The `scopes` table is never created by the migrations in `store.go`. The model assumes it
  exists.

## Model

| member | source | states |
|---|---|---|
| Core.DefaultMeta | internal/core/message.go:48-55 | the default metadata has no preferred transports, zero constraints, no automation profile and priority 0; no allowed modes, no session and no PAT MID |
| Core.NewMessage | internal/core/message.go:38-46 | a new message has the given (non-empty) id, subject and body, the default metadata and creation time `now`; it is a draft with no recipients, a `nil` tag slice, no sent time and no error |
| Identity.EffectiveCallsign | internal/runtime/identity.go:18-21 | the callsign is the trimmed, upper-cased argument, else the trimmed, upper-cased RELAYOPS_CALLSIGN; it is empty exactly when both are blank |
| Identity.EffectiveStation | internal/runtime/identity.go:23-26 | the station is the trimmed RELAYOPS_STATION, or "default" when that is blank; never empty |
| Identity.IdentityScope | internal/runtime/identity.go:17-37 | the scope is empty exactly when neither the argument nor RELAYOPS_CALLSIGN gives a callsign |
| Identity.ScopeEmptyWithoutCallsign | internal/runtime/identity.go:28-31 | with no callsign from either source the scope is "" |
| Identity.ScopeShape | internal/runtime/identity.go:33-36 | the scope is CALLSIGN when the station is blank or "default", and CALLSIGN@STATION otherwise |
| Identity.EffectiveCallsignCanonical | internal/runtime/identity.go:18-21 | the effective callsign is always trimmed and upper case |
| Identity.CanonicalCallsign | internal/runtime/identity.go:18-21 | a callsign that is already trimmed and upper case is used unchanged, whatever the environment holds |
| Identity.ScopeStable | internal/runtime/identity.go:17-37 | with the default station, a scope passed back in as the callsign gives the same scope |
| Diagnostics.ValidateCallsign | internal/ops/diagnostics.go:75-86 | "empty callsign" exactly when the input is blank; accepted exactly when the trimmed, upper-cased input is 3 to 16 characters of A-Z, 0-9 and '/'; the other rejection quotes the input |
| Diagnostics.LowerCaseCallsignAccepted | internal/ops/diagnostics.go:77-86 | a lower-case callsign of 3 to 16 letters, digits and '/' is accepted, because validation upper-cases first |
| Sim.SendOne | internal/transport/sim/sim.go:14-30 | the simulated sender fails exactly for a radio_only session whose allow-list is exactly [telnet], with that error; otherwise it returns "SIM-OK" |
| StoreSchema.RowOf | internal/store/store.go:307-322 | the inserted row keeps the message's id, status and metadata, stores its update time and leaves sent_at NULL |
| StoreSchema.MessageOf | internal/store/store.go:508-562 | a row read back by ListQueued keeps its id, status and last error |
| StoreSchema.SummaryOf | internal/store/store.go:356-379 | a row read back as a summary keeps its id and status |
| StoreSchema.SaveThenReadBack | internal/store/store.go:307-322 | reading back a saved message gives the same message with no sent time |
| StoreSchema.TagMemberMatches | internal/store/store.go:407-415 | a message carrying tag t matches the pattern LIKE '%t%' over its JSON tag list, when no character of t is escaped by the JSON encoder |
| StoreSchema.EscapePlain | internal/store/store.go:298 | the JSON string encoder leaves a text with no escaped character unchanged |
| StoreSchema.UntaggedMatchesNull | internal/store/store.go:298 | a message with a `nil` tag slice is stored as `null`, so the patterns for "u", "ul" and "null" match it |
| StoreSchema.EscapedTagMissed | internal/store/store.go:298 | a message tagged "R&D" is stored as `["R\u0026D"]`, so the pattern for "R&D" does not match it |
| StoreSchema.TagLikeMatchesPartOfTag | internal/store/store.go:414-415 | the LIKE pattern also matches a message whose tag only contains t: tag "abc" matches "ab" |
| StoreSchema.Filter | internal/store/store.go:485-489 | the rows kept are exactly the rows the WHERE clause accepts, and no more rows than went in |
| StoreSchema.SortFacts | internal/store/store.go:498 | ORDER BY yields a sorted permutation of its input and keeps ids distinct |
| StoreSchema.EffectiveLimit | internal/store/store.go:340-342 | a limit of 0 or less becomes 25; a positive limit is kept |
| StoreSchema.QuerySound | internal/store/store.go:439-445 | a listing returns only rows that match, in the requested order, without repeating an id |
| StoreSchema.QueryComplete | internal/store/store.go:439-445 | a listing returns min(limit, matching rows) rows, and every matching row it leaves out sorts no earlier than every row it returns |
| StoreSchema.BeforeTotal | internal/store/scopes.go:33 | ORDER BY scope orders any two distinct scopes one way or the other |
| StoreSchema.BeforeIrreflexive | internal/store/scopes.go:33 | no scope sorts before itself |
| Store.WithStatus | internal/store/store.go:387-399 | a status update sets the status, the last error and updated_at; it sets sent_at to now for sent and keeps it otherwise (COALESCE); all other columns are kept |
| Store.AfterStatus | internal/store/store.go:395-399 | a status update never adds or removes a row |
| Store.SentAtSticky | internal/store/store.go:397 | once a message has a sent time, no status update clears it |
| Store.Requeued | internal/store/store.go:410-415 | requeueing sets queued status, clears the last error and sets updated_at to now; sent time, tags and body are kept |
| Store.Backfilled | internal/store/store.go:263-268 | migration v2 gives a row with an empty updated_at its creation time and leaves every other row unchanged |
| Store.DecodeMetaStrict | internal/store/pat_mid.go:24-29 | decoding meta_json fails exactly when it is unparseable; otherwise it agrees with the lenient decoding |
| Store.WithPatMID | internal/store/pat_mid.go:16-45 | the PAT MID update fails exactly on unparseable meta; otherwise only meta_json changes, to the decoded metadata with the new PAT MID |
| Store.LookupRef | internal/store/external_refs.go:60-76 | a reference lookup finds exactly the stored keys and returns their message id, else "" and not found |
| Store.UpsertThenLookup | internal/store/external_refs.go:28-57 | after an upsert the key resolves to the new message id and an existing reference keeps its created_at; other keys resolve as before; only that key is added |
| Store.UpsertState | internal/store/backend_state.go:11-36 | a backend state upsert sets the row for (message, backend) and keeps every other row |
| Store.BackfillKeeps | internal/store/store.go:190-221 | the v3 backfill is INSERT OR IGNORE: a reference already present is never changed |
| Store.BackfillOneAdds | internal/store/store.go:209-220 | one row adds at most its own key, with a non-empty PAT MID, pointing at that row |
| Store.BackfillSound | internal/store/store.go:190-221 | every reference the backfill adds is a "pat" reference with a non-empty MID, pointing at a row whose MID and sender scope form its key |
| Store.BackfillComplete | internal/store/store.go:190-221 | every row with a PAT MID ends with a reference under its key |
| Store.InsertScope | internal/store/scopes.go:32-49 | inserting a scope keeps the list in ascending order, adds exactly that scope and keeps the other entries |
| Store.MessageStore.Fresh | internal/store/store.go:28-54 | a new database file has no tables, rows or recorded migrations |
| Store.MessageStore.Existing | internal/store/store.go:28-54 | an existing file holds its rows by id in rowid order and its recorded migrations, in the order v1, v2, v3 |
| Store.MessageStore.Migrate | internal/store/store.go:62-147 | a database without v1 gets only v1; otherwise v2 and then v3 are applied when missing, so all three are recorded; the rows change only by the v2 backfill and the references only by the v3 backfill |
| Store.MessageStore.ApplyV2 | internal/store/store.go:236-278 | v2 records itself and backfills updated_at in every row; nothing else changes |
| Store.MessageStore.ApplyV3 | internal/store/store.go:149-234 | v3 records itself, creates empty backend state and fills the references with the PAT backfill of the rows in rowid order |
| Store.MessageStore.SaveMessage | internal/store/store.go:289-328 | a nil message, a storage error or a duplicate id fails with its message and changes nothing; otherwise the row is added at the end of rowid order |
| Store.MessageStore.SetStatusByID | internal/store/store.go:387-405 | the status write is logged; it fails exactly on a storage error; the rows become AfterStatus of the old rows |
| Store.MessageStore.MarkSending | internal/store/store.go:567-569 | marking sending is the status update to sending with an empty error |
| Store.MessageStore.QueueByTag | internal/store/store.go:407-420 | every draft or failed row whose JSON tag text (`null` when untagged, escaped strings otherwise) matches the pattern is requeued, and the others are kept; the result counts the requeued rows; a storage error changes nothing |
| Store.MessageStore.DeleteByID | internal/store/store.go:571-580 | a row not yet deleted is marked deleted and counts 1; a missing or already deleted row counts 0; a storage error changes nothing |
| Store.MessageStore.ListQueued | internal/store/store.go:479-565 | returns the queued rows whose JSON tag text (`null` when untagged, escaped strings otherwise) contains the tag (any row when it is blank), oldest update first, at most the effective limit, as messages |
| Store.MessageStore.ListByStatus | internal/store/store.go:422-477 | returns the rows whose status is listed (draft, queued and failed when none is), newest update first, at most the effective limit, as summaries |
| Store.MessageStore.ListMessages | internal/store/store.go:339-385 | returns all rows, or the ones not deleted, newest first, at most the effective limit, as summaries |
| Store.MessageStore.UpsertExternalRef | internal/store/external_refs.go:28-57 | an empty message id, backend or external id fails with the "required" error; before v3 or on a storage error it fails; otherwise the reference is upserted |
| Store.MessageStore.GetMessageIDByExternalRef | internal/store/external_refs.go:60-76 | before v3 or on a storage error it fails; otherwise it reports whether the key is stored and, if so, its message id |
| Store.MessageStore.UpsertBackendState | internal/store/backend_state.go:11-36 | an empty message id or backend fails with the "required" error; before v3 or on a storage error it fails; otherwise the state row is upserted with extra "{}" when empty |
| Store.MessageStore.CreateScope | internal/store/scopes.go:52-65 | a new scope is added with its creation time and note; an existing scope is left as it was (INSERT OR IGNORE) |
| Store.MessageStore.ScopeExists | internal/store/scopes.go:19-29 | reports exactly whether the scope is in the table, or the storage error |
| Store.MessageStore.ListScopes | internal/store/scopes.go:32-49 | returns every scope exactly once, in ascending order, with its creation time and note |
| Store.MessageStore.SetPatMIDByID | internal/store/pat_mid.go:11-46 | the "pat" reference with an empty scope is upserted first, with its error ignored; then the row's meta_json gets the PAT MID, or the select or unmarshal error is returned |
| Store.MessageStore.WritePatMIDMeta | internal/store/pat_mid.go:16-45 | a missing row or unparseable meta fails with the select or unmarshal error; otherwise only the row's meta changes |
| Store.ScanBackfill | internal/store/store.go:198-221 | the backfill loop over the rows computes BackfillRefs |
| Store.Messages | internal/store/store.go:508-563 | the scan loop turns each row into its message, in order |
| Store.Summaries | internal/store/store.go:356-380 | the scan loop turns each row into its summary, in order |
| Dispatch.ContainsMode | internal/ops/send.go:61-68 | true exactly when the mode is in the list |
| Dispatch.VerdictOf | internal/ops/send.go:34-55 | a message is rejected exactly when its session is p2p and telnet is allowed; it is delivered exactly when it is not rejected, the sending mark succeeds and the sender succeeds; the sending mark fails exactly when it is not rejected and the mark's write fails, with "SetStatusByID: " and the storage error as its error; a send failure carries the sender's error |
| Dispatch.MarkFailureEffect | internal/ops/send.go:42-46 | when the sending mark fails, the engine's plan writes Failed with that error (and the row then reads Failed with it, unless that write fails too); the CLI's plan leaves the rows unchanged (cmd/relayops/main.go:445-449 only prints and counts) |
| Dispatch.DispatchOne | internal/ops/send.go:34-55 | one candidate logs exactly its plan of status writes, and the rows change by those writes alone |
| Dispatch.DispatchAll | internal/ops/send.go:33-56 | sent + failed equals the number of candidates; sent counts the delivered ones; the status log and the rows get every candidate's plan in order |
| Dispatch.SendQueued | internal/ops/send.go:20-59 | a nil store, a nil sender or a listing error fails with its message and changes nothing; otherwise the loop runs over the ListQueued candidates |
| Dispatch.Candidates | internal/store/store.go:479-500 | the candidates are the ListQueued rows, in order, as messages |
| Dispatch.OneAttemptEach | internal/ops/send.go:33-56 | with distinct ids, each candidate's row ends as its own plan alone leaves it: the other candidates never touch it |
| Dispatch.FinalStatus | internal/ops/send.go:36-55 | without storage failures a queued message ends sent (no error, sent now) when delivered, or failed with the policy error or the sender's error |
| Dispatch.PolicyBeforeSender | internal/ops/send.go:36-40 | a policy rejection writes only the failed status and never consults the sender |
| Dispatch.SendingFirst | internal/ops/send.go:42-55 | a message that passes the policy is first marked sending, and at most one more write follows, to sent or failed |
| Cli.ModesOf | cmd/relayops/main.go:248-261 | a parsed mode list is never empty: [any] when no piece is left |
| Cli.ParseModes | cmd/relayops/main.go:248-261 | the parsing loop computes ModesOf |
| Cli.ModesOfClean | cmd/relayops/main.go:248-261 | every parsed mode is non-empty, trimmed, lower case and free of commas |
| Cli.ModesToString | cmd/relayops/main.go:263-272 | the modes joined by commas; "" exactly for an empty list or a single empty mode |
| Cli.ModesRoundTrip | cmd/relayops/main.go:248-272 | parsing a printed list of clean modes gives the list back |
| Cli.ModesCanonical | cmd/relayops/main.go:248-272 | printing and re-parsing a parsed list changes nothing |
| Cli.SessionToString | cmd/relayops/main.go:274-279 | an empty session prints as winlink; any other prints as itself |
| Cli.ParseTags | cmd/relayops/main.go:163-170 | the tag loop keeps the trimmed, non-blank pieces of the comma-separated flag, and leaves the slice `nil` when there are none |
| Cli.Compose | cmd/relayops/main.go:129-170 | a blank subject or body gives the usage error, then an unknown session the session error; otherwise the result is a draft with those fields, allow and prefer lists parsed only when given, the normalised session and the flag's tags |
| Cli.SimTransportSend | cmd/relayops/main.go:471-482 | the CLI's simulated transport fails exactly for a radio_only session whose allow-list is exactly [telnet] |
| Cli.SimTransportAgrees | cmd/relayops/main.go:471-482 | the CLI's simulated transport and the sim package's sender fail on the same messages with the same error |
| Cli.RunSend | cmd/relayops/main.go:407-465 | a listing error is reported and changes nothing; otherwise sent + failed equals the number of candidates, and the status writes are those of the send loop with the CLI's handling of a failed sending mark |
| B2F.Recipient | internal/transport/pat/b2f.go:60-68 | an address gives a recipient exactly when its callsign or its email is not blank |
| B2F.FirstToOf | internal/transport/pat/b2f.go:59-72 | the first recipient is "" exactly when no address gives one |
| B2F.FirstToIsFirst | internal/transport/pat/b2f.go:59-72 | the first address that gives a recipient is the one used |
| B2F.FirstTo | internal/transport/pat/b2f.go:59-72 | the loop computes FirstToOf |
| B2F.NormalizeLF | internal/transport/pat/b2f.go:74-78 | no carriage return is left |
| B2F.NormalizeLFOfClean | internal/transport/pat/b2f.go:74-78 | text without carriage returns is unchanged |
| B2F.NormalizeLFIdempotent | internal/transport/pat/b2f.go:74-78 | normalising twice is normalising once |
| B2F.SanitizeHeader | internal/transport/pat/b2f.go:80-84 | a sanitised header has no line breaks and no surrounding spaces |
| B2F.BodyOf | internal/transport/pat/b2f.go:25-28 | the body has no carriage return and ends in a line feed |
| B2F.BuildB2F | internal/transport/pat/b2f.go:12-47 | fails with "missing To" exactly when no recipient, then with "missing From" when neither the sender nor mycall is set; otherwise returns the header lines, a blank line and the body |
| B2F.B2FReadBack | internal/transport/pat/b2f.go:33-46 | the output reads back as exactly its header lines, then the body; the Body: line holds the body's byte length in decimal |
| B2F.HeaderLinesClean | internal/transport/pat/b2f.go:34-43 | every header line is non-empty and has no line feed, so the header ends at the first blank line |
| B2F.NewMID | internal/transport/pat/b2f.go:49-57 | the MID has one character per random byte: the byte modulo 36 into A-Z0-9 |
| B2F.MidCharsAreCallsignChars | internal/transport/pat/b2f.go:49-57 | a generated MID has only A-Z and 0-9, so it is trimmed and has no line feed |
| B2F.MidPassesCallsignCheck | internal/transport/pat/b2f.go:49-57 | a generated MID of 3 to 16 characters passes the callsign check of internal/ops/diagnostics.go |
| PatImport.MapPatFolder | internal/transport/pat/importer.go:230-243 | out maps to queued, sent to sent and every other folder to draft; the four known folders have a backend state and any other keeps its own name with an empty state |
| PatImport.BlankFrom | internal/transport/pat/importer.go:190-196 | the header ends at the first blank line after the start, or at the end of the dump |
| PatImport.ApplyHeaderLine | internal/transport/pat/importer.go:192-224 | one header line updates the header as HeaderField states |
| PatImport.ParsePatDump | internal/transport/pat/importer.go:187-228 | the parsing loop computes DumpOf |
| PatImport.NoBlankNoBody | internal/transport/pat/importer.go:187-228 | a dump without a blank line is all header, and its body is "" |
| PatImport.RecipientsShape | internal/transport/pat/importer.go:214-221 | every parsed recipient is either an email containing '@' or a callsign without one |
| PatImport.KeyLineCut | internal/transport/pat/importer.go:197-203 | a "Name: value" line splits into the lower-cased name and the value |
| PatImport.MidLine | internal/transport/pat/importer.go:204-205 | a Mid: line sets the MID |
| PatImport.FromLine | internal/transport/pat/importer.go:212-213 | a From: line sets the sender |
| PatImport.ToLine | internal/transport/pat/importer.go:214-221 | a To: line appends one recipient |
| PatImport.SubjectLine | internal/transport/pat/importer.go:222-223 | a Subject: line sets the subject |
| PatImport.DumpRoundTrip | internal/transport/pat/importer.go:187-228 | a dump of Mid, From, To and Subject lines, a blank line and a body parses back to those fields and that body |
| PatImport.Ext | internal/transport/pat/importer.go:73 | the extension is "" exactly when the name has no dot; otherwise it is the name's suffix from its last dot |
| PatImport.MidOfB2F | internal/transport/pat/importer.go:73 | the MID of "X.b2f" is X |
| PatImport.PatBinary | internal/transport/pat/importer.go:39-41 | a blank binary name becomes "pat" |
| PatImport.NewRecord | internal/transport/pat/importer.go:106-129 | a new message takes the subject (or "(no subject)"), body, sender, recipients and folder status from the dump; it is created at the dump's date, or now when the date is zero, and updated now |
| PatImport.Tally | internal/transport/pat/importer.go:74-146 | each file adds exactly one to created, updated or errors |
| PatImport.Counts | internal/transport/pat/importer.go:65-147 | created + updated + errors equals the number of files scanned |
| PatImport.ImportAll | internal/transport/pat/importer.go:66-147 | the import yields one fate per file |
| PatImport.ImportNew | internal/transport/pat/importer.go:131-146 | saving, linking and recording a new message changes the store as Admit states |
| PatImport.ImportOne | internal/transport/pat/importer.go:66-147 | one file changes the store as Visit states |
| PatImport.ImportNext | internal/transport/pat/importer.go:66-147 | the loop step extends the fates, the ledger and the counts by one file |
| PatImport.ImportFiles | internal/transport/pat/importer.go:66-149 | visiting every file in glob order leaves the store at ImportAll of the files, with counts tallied from their fates |
| PatImport.ImportFromMailbox | internal/transport/pat/importer.go:35-150 | fails, changing nothing, on a nil store, then a missing callsign, then a blank mbox, then a blank scope; otherwise the store becomes ImportAll of the files and the report counts their fates |
| PatImport.VisitFits | internal/transport/pat/importer.go:73-146 | each file's fate names the step that decided it and the failures that led there; a new message is the record built from its dump |
| PatImport.ImportFates | internal/transport/pat/importer.go:66-147 | every file's fate fits its file |
| PatImport.AdmitGrows | internal/transport/pat/importer.go:131-146 | a new message only adds to the ledger: a saved message under a fresh id, with its row, and a created one linked |
| PatImport.RefreshGrows | internal/transport/pat/importer.go:97-104 | a linked message refreshes only its backend state |
| PatImport.VisitGrows | internal/transport/pat/importer.go:66-147 | one file only adds to the ledger, and a file refreshed or created is linked |
| PatImport.ImportGrows | internal/transport/pat/importer.go:66-147 | an import keeps every message and reference it found, and gains exactly the messages its fates saved |
| PatImport.ImportSavedRows | internal/transport/pat/importer.go:131-134 | every saved message's row is its record |
| PatImport.ImportLinks | internal/transport/pat/importer.go:97-146 | every file refreshed or created is linked in the ledger afterwards |
| PatImport.ImportLinkedSavesNothing | internal/transport/pat/importer.go:82-104 | files whose MIDs are all linked in the scope create no message |
| PatImport.VisitLinked | internal/transport/pat/importer.go:82-104 | a file whose MID is linked leaves the messages alone |
| PatImport.Reimport | internal/transport/pat/importer.go:35-150 | re-importing after every file was refreshed or created creates nothing, whatever fails the second time |
| PatImport.RecordForDump | internal/transport/pat/importer.go:106-129 | the record built from a PAT dump carries its subject (or "(no subject)"), body, sender and recipient, is created now and has the generated id |
| PatImport.CreatedRecord | internal/transport/pat/importer.go:88-146 | a created message is the record built from the file's successful `pat extract` |
| PatImport.CreatedFromDump | internal/transport/pat/importer.go:88-146 | a message created from a dump in PAT's usual layout carries the dump's subject, sender, recipient and body |
| Registry.StateOf | internal/transport/winlink/registry.go:68-75 | the state is "" or one of the six state tokens |
| Registry.StateOfEmpty | internal/transport/winlink/registry.go:68-75 | the state is "" exactly when no trimmed field is a state token |
| Registry.StateOfLast | internal/transport/winlink/registry.go:68-75 | a non-empty state is the last field that trims to a token |
| Registry.ScanState | internal/transport/winlink/registry.go:69-75 | the scanning loop computes StateOf |
| Registry.RowRecord | internal/transport/winlink/registry.go:53-90 | a row of 9 or more fields keeps all its raw fields and the state StateOf |
| Registry.RecordOf | internal/transport/winlink/registry.go:44-94 | a kept line has a non-empty id and is split on \x01 into 9 or more raw fields |
| Registry.ParseLine | internal/transport/winlink/registry.go:44-94 | the per-line code computes RecordOf |
| Registry.Records | internal/transport/winlink/registry.go:42-95 | no more records than lines |
| Registry.ReadRegistry | internal/transport/winlink/registry.go:42-99 | the scan loop computes Records |
| Registry.RecordsAppend | internal/transport/winlink/registry.go:42-95 | reading two blocks of lines is reading each and concatenating the records |
| Registry.RecordsFromLines | internal/transport/winlink/registry.go:42-95 | every record comes from a line that parses to it |
| Registry.RecordsNone | internal/transport/winlink/registry.go:45-51 | lines that hold no record give no records |
| Registry.RowRoundTrip | internal/transport/winlink/registry.go:44-94 | a row of 9 or more separator-free fields with a non-blank id reads back with its raw fields, its trimmed id, from, to, number, subject and folder, and its state |
| WinlinkImport.MapWinlinkFolderToStatus | internal/transport/winlink/importer.go:210-221 | "sent items" and "sent" map to sent and "outbox" to queued, ignoring case and spaces; every other folder maps to draft |
| WinlinkImport.BaseName | internal/transport/winlink/importer.go:45 | the last path element is never empty and has no slash unless it is "/"; "." for an empty path |
| WinlinkImport.BaseOfChild | internal/transport/winlink/importer.go:45 | the base of dir/name, with any trailing slashes, is name |
| WinlinkImport.SubjectOf | internal/transport/winlink/importer.go:72-79 | the registry subject when set, else the MIME subject, else "(no subject)" |
| WinlinkImport.NewRecord | internal/transport/winlink/importer.go:81-132 | created from the registry time, else the MIME date, else now, and updated at the same time; winlink session with allow-list [any]; sender and recipients from MIME with registry fallbacks; the state "Sent" gives sent status dated at creation, otherwise the folder's status |
| WinlinkImport.UnlinkedCount | internal/transport/winlink/importer.go:139-143 | no more saved-but-unlinked messages than messages |
| WinlinkImport.Tally | internal/transport/winlink/importer.go:56-149 | each message adds one count, and two when it was saved but not linked |
| WinlinkImport.Counts | internal/transport/winlink/importer.go:48-150 | created + updated + errors equals the number scanned plus the messages saved but not linked |
| WinlinkImport.ImportAll | internal/transport/winlink/importer.go:49-150 | the import yields one fate per registry message |
| WinlinkImport.ImportNew | internal/transport/winlink/importer.go:134-149 | saving and linking a new message changes the store as Admit states |
| WinlinkImport.LinkNew | internal/transport/winlink/importer.go:139-147 | writing the reference and then the backend state changes the store as Link states |
| WinlinkImport.ImportOne | internal/transport/winlink/importer.go:49-150 | one registry message changes the store as Visit states |
| WinlinkImport.ImportNext | internal/transport/winlink/importer.go:49-150 | the loop step extends the fates, the ledger and the counts by one message |
| WinlinkImport.ImportFromWinlinkExpress | internal/transport/winlink/importer.go:34-153 | a nil store or an unreadable registry fails and changes nothing; otherwise the store becomes ImportAll of the registry's records under the root's scope and the report counts the fates |
| WinlinkImport.VisitFits | internal/transport/winlink/importer.go:56-149 | each message's fate names the step that decided it; a new message is the record built from its MIME text |
| WinlinkImport.ImportFates | internal/transport/winlink/importer.go:49-150 | every message's fate fits its registry record |
| WinlinkImport.AdmitGrows | internal/transport/winlink/importer.go:134-149 | a new message only adds to the ledger: a saved message under a fresh id, with its row, and a created one linked |
| WinlinkImport.UpdateKeeps | internal/transport/winlink/importer.go:91-98 | a linked message changes at most its backend state and stays linked |
| WinlinkImport.VisitGrows | internal/transport/winlink/importer.go:49-150 | one message only adds to the ledger, and a message updated or created is linked |
| WinlinkImport.ImportGrows | internal/transport/winlink/importer.go:49-150 | an import keeps every message and reference it found, and gains exactly the messages its fates saved |
| WinlinkImport.ImportLinks | internal/transport/winlink/importer.go:91-143 | every message updated or created is linked in the ledger afterwards |
| WinlinkImport.VisitLinked | internal/transport/winlink/importer.go:56-98 | a message whose Winlink id is linked leaves the messages alone |
| WinlinkImport.ImportLinkedSavesNothing | internal/transport/winlink/importer.go:56-98 | registry messages whose ids are all linked in the scope create no message |
| WinlinkImport.Reimport | internal/transport/winlink/importer.go:34-153 | re-importing after every message was updated or created creates nothing, whatever fails the second time |
| WinlinkImport.SavedRecord | internal/transport/winlink/importer.go:62-134 | a saved message is the record built from its MIME file |
| WinlinkImport.SavedFromRegistry | internal/transport/winlink/importer.go:72-132 | a saved message keeps the registry's subject and creation time when set; the state "Sent" makes it sent at its creation time; its session is winlink and its id the generated one |

## Left out

- SQLite itself: SQL text, transactions, rollbacks, `Open`/`Close`, the database path and file
  permissions. A storage-engine failure is one `dbErr` parameter per call.
- Database errors inside `migrate` (`hasMigration`, DDL, recording a migration) are not
  modelled; `Store.MessageStore.Migrate` always succeeds.
- Foreign keys and `ON DELETE CASCADE` are not modelled. Messages are soft-deleted only, so
  the cascade never fires in the modelled code.
- The `scopes` table is assumed to exist; no migration in `store.go` creates it.
- JSON encoding and decoding of to, meta and extras are not modelled. `meta_json` is
  either well-formed metadata or garbage; other JSON columns hold their decoded values.
- The tag list's JSON text is modelled, because the tag filters search it: `null` for a `nil`
  slice, and `encoding/json`'s string escaping. Invalid UTF-8 (replaced by U+FFFD) cannot
  occur in a Dafny string and is not modelled.
- SQL `LIKE` is modelled as case-sensitive substring search on the JSON tag list. SQLite's
  ASCII case folding and the `%`/`_` wildcards inside a tag are not modelled.
- Ties in `ORDER BY` are broken by insertion order. SQLite does not promise this.
- Time parsing and formatting (RFC 3339, the registry layout, PAT's date layouts, `time.Now`)
  are functions passed in. Times are whole seconds.
- `uuid.NewString`, `crypto/rand` (`B2F.NewMID` takes the random bytes) and SHA-256 digests are
  inputs, not computed.
- Context cancellation and timeouts in the import loops are not modelled. An import either
  fails before its loop or finishes every record.
- `pat extract` (process execution, its output and exit status) is an oracle per MID.
- `filepath.Glob` over the four PAT folders is not modelled. The importer receives the file
  list with each file's folder key.
- Reading `Registry.txt` is not modelled. The registry argument is the file's lines, or the
  open or scan error. The scanner's 1 MiB line limit and its line splitting are left out.
- Reading each `.mime` file and `parseRFC822` (net/mail header parsing) are oracles. Their
  results feed the record built for each message.
- `buildBackendExtra` and `patExtra` JSON are encoded by a function passed in. The model does
  not state their contents.
- WinlinkImport.BaseName: does not model `filepath.Clean`'s handling of `.` and `..`
  segments or repeated slashes inside the path. It strips trailing slashes and takes the last
  element.
- Text.ToUpper and Text.ToLower: map ASCII letters plus the few non-ASCII letters whose
  case maps into ASCII. Other Unicode case mappings are not modelled.
- Core.NewMessage: `updatedAt == createdAt` and the draft status are choices of the model;
  `NewMessage` in Go leaves both zero until the store writes the row.
- Dispatch.DispatchAll, Dispatch.SendQueued and Cli.RunSend: every status write of one run
  uses the same `now`. The source calls `time.Now()` again in each `SetStatusByID`.
- Error texts that depend on library formatting are approximations: `%q` in
  `ValidateCallsign` is written as plain quotes (exact unless the input holds quotes,
  backslashes or unprintable characters), and a `meta_json` decode error has a fixed text.
- Nil receivers (`s == nil` or `s.db == nil` in the reference and state methods) are not
  modelled. Every store method has an opened store.
- The other CLI subcommands (`init`, `doctor`, `list`, `outbox`, `queue`, `mark-sent`,
  `mark-failed`) and flag parsing are not modelled. Their output is printing only, or they
  call the store methods already modelled.
- `InitRuntime`, `Doctor`, `internal/runtime/paths.go`, `internal/transport/transport.go`, and
  the PAT `outbox.go`, `sender.go` and `config.go` are not part of this model. They are file
  system, process and configuration glue around the modelled core.
