# Ticket scanner: participant cache and verification handlers

This project models the core of a ticket-verification and check-in service.
The service keeps a Google Sheet of participants. In front of it sits a
read-through cache: a map from ticket id to participant record, plus one
timestamp of the last full reload. The HTTP handlers `/verify`, `/checkin`,
`/bulk-verify` and `/refresh-cache` make their decisions on top of that cache.

- `wrappers.dfy`: `Option`, used for the outcome of a fetch that may fail.
- `participants.dfy` (module `Participants`): the record built from one sheet
  row, and `BuildCache`, the map one reload builds from the fetched rows.
  Lemmas characterise its keys and its values.
- `sheets_service.dfy` (module `SheetsService`): the class
  `ParticipantCache`, whose fields are the map and the timestamp. Its methods
  are `Load`, `VerifyTicket` and `MarkAsCheckedIn`. Each method ties the new
  state to a pure function of the old one, using the value view `Snapshot`
  and the functions `Reloaded`, `AfterLookup` and `PatchStatus`.
- `verification.dfy` (module `Verification`): the handlers' decisions as
  response datatypes and classification functions. The handlers are methods
  that drive the cache. The bulk loop is specified by the function `BulkRun`.

The remote store and the clock become parameters:

- a fetch outcome `Option<Rows>`, where `None` means the Sheets read threw;
- a write outcome `bool`;
- `now: int` for `Date.now()`.

Missing cells of a short row read as `""`, as `row[k] || ''` does in
JavaScript. The remote writes a check-in issues are returned as `CellWrite`
values, so a caller can see that no write took place.

Two behaviours of the code worth noting:

- The reload window is strict. When the map is non-empty, a lookup at exactly
  `lastUpdate + 30000` does not reload (services/sheetsService.js:63). With an
  empty map, every lookup reloads. `FreshnessWindow` states this.
- `/checkin` refuses only `"Checked In"`. It writes for every other status,
  including `""` and any status `/verify` calls invalid
  (routes/verification.js:103-115). `CheckInWritesBeyondVerify` states this.

The cache also has a ghost counter, `fetchAttempts`, of the sheet reads it has
issued. It records whether an operation called the sheet at all, even when the
read failed and left the state unchanged.

## Model

| member | source | states |
|---|---|---|
| `Participants.MakeParticipant` | services/sheetsService.js:38-47 | the record takes name, email, phone, status, rrn, degree/branch and ticket id from columns D, B, F, I, C, E, J; a missing name becomes "Unknown" and never stays empty, other missing cells become ""; `row` is the 0-based index plus 2 |
| `Participants.BuildCache` | services/sheetsService.js:30-49 | the rebuilt map is keyed by non-empty ticket ids, each record's `ticketId` equals its key, and each `row` lies between 2 and the number of rows plus 1 |
| `Participants.BuildCacheKeys` | services/sheetsService.js:33-38 | a key is in the rebuilt map iff it is non-empty and some fetched row has it in column J (empty-id rows are skipped) |
| `Participants.BuildCacheLastWins` | services/sheetsService.js:33-47 | the record under an id is the one built from the last row carrying that id, with that row's index plus 2 |
| `SheetsService.Find` | services/sheetsService.js:67-77 | a lookup finds the stored record iff the key is present, and otherwise reports "Ticket not found" |
| `SheetsService.PatchStatus` | services/sheetsService.js:99-104 | after a check-in patch only that entry's status changes to "Checked In"; other entries and the key set stay the same, so an absent key is not inserted; well-keyedness is kept |
| `SheetsService.RefreshDue` | services/sheetsService.js:63 | a lookup must reload when the map is empty or strictly more than 30000 ms have passed since the last reload, and only then |
| `SheetsService.Reloaded` | services/sheetsService.js:25-57 | a failed fetch leaves the state as it was; a successful one sets the timestamp to now and yields a well-keyed map; well-keyedness is kept either way |
| `SheetsService.AfterLookup` | services/sheetsService.js:63-65 | the state is unchanged when no reload is due or the fetch fails; otherwise the timestamp becomes now; well-keyedness is kept |
| `SheetsService.ReloadReplaces` | services/sheetsService.js:30-51 | a successful reload sets the timestamp to now and keeps no previous key unless a fetched row carries it |
| `SheetsService.FreshnessWindow` | services/sheetsService.js:63-65 | after a successful reload at t that found a ticket, a lookup reloads again iff it happens strictly after t + 30000 |
| `SheetsService.FailedReloadKeepsServing` | services/sheetsService.js:54-68 | a failed reload leaves the state as it was, and a known ticket is still found with its old record |
| `SheetsService.ParticipantCache.constructor` | services/sheetsService.js:16-17 | the cache starts with an empty map, timestamp 0 and no sheet reads issued |
| `SheetsService.ParticipantCache.Load` | services/sheetsService.js:21-58 | issues exactly one sheet read; returns true iff it succeeded; on success the map becomes `BuildCache` of the rows and the timestamp becomes now; on failure map and timestamp are unchanged |
| `SheetsService.ParticipantCache.VerifyTicket` | services/sheetsService.js:60-82 | exactly one sheet read is issued iff the window has passed or the map is empty, none otherwise; the answer is the stored record iff the key is present after that, and a found record carries the looked-up id |
| `SheetsService.ParticipantCache.MarkAsCheckedIn` | services/sheetsService.js:84-111 | issues the write of "Checked In" to the given row; reports the write's outcome; patches the cached status only if the write succeeded; never changes the timestamp and issues no sheet read |
| `Verification.VerifyResponseFor` | routes/verification.js:21-66 | success iff the ticket was found with status "Ticket Sent"; "Checked In" gives "Ticket already used"; any other status gives "Invalid ticket status"; not found passes the lookup's message on |
| `Verification.CheckInStepFor` | routes/verification.js:93-112 | the write is reached iff the ticket was found and is not "Checked In", targeting that record's row; otherwise the answer is "Invalid ticket - cannot check in" or "Already checked in" |
| `Verification.CheckInOutcome` | routes/verification.js:115-132 | check-in reports success iff the write returned true |
| `Verification.BulkItemFor` | routes/verification.js:158-164 | a bulk entry carries its id, is valid iff the lookup found the record, and carries the record or the lookup's message |
| `Verification.BulkRun` | routes/verification.js:156-165 | one result per input id, in input order, each carrying its id; a record in a result has that id; the cache stays well-keyed |
| `Verification.BulkReads` | routes/verification.js:157-158 | a bulk call issues at most one sheet read per id, one for each lookup that finds a reload due |
| `Verification.BulkWithinWindow` | routes/verification.js:156-165 | inside the freshness window a bulk call changes no state and issues no read, and each entry is that id's own lookup in the current map, independent of the other entries |
| `Verification.CheckInWritesBeyondVerify` | routes/verification.js:102-115 | check-in writes exactly for the records that verify either accepts or calls "Invalid ticket status" |
| `Verification.VerifyCheckInVerify` | routes/verification.js:91-115 | a sent ticket verifies and its check-in writes its row; after the patch, a lookup that does not reload reports it used and a repeated check-in issues no write |
| `Verification.HandleVerify` | routes/verification.js:6-74 | a missing or empty id gives the 400 answer without touching the cache or reading the sheet; otherwise the cache takes one lookup step, one sheet read is issued iff a reload was due, and the answer classifies the record found |
| `Verification.HandleCheckIn` | routes/verification.js:77-140 | a missing or empty id gives the 400 answer without touching the cache or reading the sheet; otherwise one sheet read is issued iff a reload was due; at most one remote write is issued, only when the guard allows it; success iff that write succeeded; the cache is patched only after a successful write |
| `Verification.HandleBulkVerify` | routes/verification.js:143-178 | a missing or empty list gives the 400 answer without touching the cache or reading the sheet; otherwise the results and the final cache state are those of `BulkRun` and the reads issued are counted by `BulkReads` |
| `Verification.HandleRefreshCache` | routes/verification.js:181-204 | always issues exactly one sheet read; reports success iff it succeeded; the new state is `Reloaded` of the old one, as with `Load` |

## Left out

- The Google Sheets client, credentials and auth (services/sheetsService.js:1-13). Each read or write becomes a parameter holding its outcome. The remote sheet itself is not modelled, so a successful write is not reflected in later fetches unless the caller passes such rows.
- The startup load (services/sheetsService.js:114). The model starts from the constructor's empty map with timestamp 0.
- The `catch` branches that answer "Verification failed" (services/sheetsService.js:78-81) or HTTP 500 (routes/verification.js:67-73, 133-139, 171-177, 197-203). Nothing in the model can throw, so these branches cannot be reached.
- The `/health` endpoint (routes/verification.js:207-213) and all of server.js: Express, HTTPS, CORS and static files are transport only.
- Logging, `toLocaleString`/`toISOString` timestamps and HTTP status codes. The check-in time text is not part of `CheckInResponse`, and a 400 is its own constructor.
- Interleaving of concurrent requests at `await` points. Every operation is treated as atomic. So one `now` stands for both clock readings of a lookup: the window check before the fetch (services/sheetsService.js:63) and the new timestamp after it (services/sheetsService.js:51).
- Request bodies whose `ticketId` is not a string. Truthy numbers or objects are not modelled: the id is `Option<string>`, a non-array `ticketIds` is `None`, and bulk list elements are strings.
- SheetsService.ParticipantCache.MarkAsCheckedIn: the A1 range text `'Form Responses 1'!I<row>` is reduced to `CellWrite(row, value)`.
- Verification.HandleBulkVerify: each lookup in the loop gets its own fetch outcome and clock reading from the caller; the model does not relate them to each other.
