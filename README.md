# Guestbook: a Dafny model of the submission and listing core

The guestbook lets a visitor submit one rated testimonial per session and
lists every testimonial publicly. This project models:

- the entry repository (`Data`, in `data.dfy`). `EntryModel` is a class over
  the `entries` table: a `seq<Entry>` in store order, plus the next id the store
  will assign. `Insert` binds the six user fields and appends a row stamped with
  the store's id and time. `GetAll` scans the rows one by one and drops
  everything on any error. The JSON form of an entry has no timestamp.
- the two JSON handlers (`Handlers`, in `handlers.dfy`).
  - The pure function `CreateDecision` is createEntryHandler's decision
    procedure: session gate, parse, validation, insert, then set the flag.
  - `App.CreateEntry` runs the same steps imperatively on the repository and
    on the session store's `hasEntry` values.
  - `App.ListEntries` is entryHandler. `ListResponse` is its mapping from
    errors to statuses.
- the two frontend stores (`Stores`, in `stores.dfy`). The sort order cycles
  `newest` → `best` → `worst`. The modal flag is toggled. The getters
  `SortOrder` and `ModalState` are functions that only read the store's state.

Everything outside the program is an input of the model:
- what `readJSON` made of the body (`Result<Input, string>`);
- the driver's outcome of the INSERT (`execErr`);
- the id and the time the store gives a new row (`id`, `now`);
- how the SELECT misbehaves (`ReadFault`: the query fails, the scan of one row
  fails, or the cursor stops early and `rows.Err()` reports an error).

The listing returns rows in the table's own order. The code's SELECT has no
ORDER BY, so the model takes that order to be the order in which rows were
stored. A database driver never returns `ErrRecordNotFound`. So
`App.ListEntries` never reaches the 404 branch. `ListResponse` still maps that
error to 404, as the handler does.

`Handlers.SubmitTwiceThenList` walks one scenario through the model. A session
submits rating 3, "Great tool", "Jane". The first submission is stored. The
second gets the soft failure. The listing shows the one entry with id 1 and
no timestamp.

## Model

| member | source | states |
|---|---|---|
| `Data.InsertArgs` | app/internal/data/entries.go:24-28 | Insert binds six values, one per column of `rating, testimonial, last_name, first_name, occupation, github` in that order, and each is the entry's value in that column |
| `Data.InsertArgsOmitStoreColumns` | app/internal/data/entries.go:24-28 | Insert names neither `id` nor `created_at`, and its arguments do not depend on the entry's id or timestamp |
| `Data.InsertRoundTrip` | app/internal/data/entries.go:24-30 | the arguments Insert binds are well typed, and the row the table stores for them is the entry with the store's id and timestamp, all six user fields copied verbatim |
| `Data.EntryModel.Insert` | app/internal/data/entries.go:23-35 | the statement's error is returned as is, and the table is then unchanged; otherwise no error, exactly one row appended with the id the store's sequence hands out (any value from the lower bound on, so ids may have gaps) and `now`, and the ids stay strictly increasing |
| `Data.EntryModel.GetAll` | app/internal/data/entries.go:37-64 | there is an error exactly when the query, a scan of an existing row, or the final `rows.Err()` fails, and then the result is nil, never a partial list; otherwise the result is every row in store order, a non-nil empty slice for an empty table |
| `Data.ToJson` | app/internal/data/entries.go:8-17 | an entry serializes under exactly the keys `id, rating, testimonial, lastname, firstname, occupation, github` |
| `Data.JsonRoundTrip` | app/internal/data/entries.go:8-17 | decoding an entry's JSON gives back its id and six user fields, with a zero timestamp |
| `Data.JsonOmitsCreatedAt` | app/internal/data/entries.go:10 | the JSON form does not depend on `CreatedAt` |
| `Handlers.ErrorResponse` | app/handlers.go:104-108 | the response carries the given status, the envelope `{"error": message}` and no headers |
| `Handlers.BadRequestResponse` | app/handlers.go:12-14 | a bad request is a 400 whose error envelope carries the error's own text |
| `Handlers.NotFoundResponse` | app/handlers.go:119-122 | not found is a 404 with the fixed message "The requested resource could not be found." |
| `Handlers.NotAllowedResponse` | app/handlers.go:114-117 | a method not allowed is a 405 whose message names the request's method |
| `Handlers.ServerErrorResponse` | app/handlers.go:124-128 | a server error is a 500 with the fixed generic message and no headers, whatever the cause |
| `Handlers.EntryOf` | app/handlers.go:51-58 | the entry handed to Insert copies rating, testimonial, last name, first name, occupation and github verbatim from the input, and leaves id and timestamp zero |
| `Handlers.App.HasEntry` | app/handlers.go:17 | a session whose flag was never set reads as false; otherwise the stored flag is read |
| `Handlers.CreateDecision` | app/handlers.go:16-75 | an already-submitted session gets 201 `failure` and nothing happens; otherwise an unparsable body gets 400 with the parser's message, an input outside rating 1..5 or with an empty testimonial or first name gets 502 `failure`, and a failed insert gets the generic 500; an entry is stored and the flag set exactly when none of these apply, and exactly then the answer is 201 `success` with `Location: /` |
| `Handlers.AtMostOneCommit` | app/handlers.go:17-69 | in any sequence of create requests of one session, once one stores an entry every later one gets 201 `failure` and stores nothing; a session that has already submitted stores nothing |
| `Handlers.ListResponse` | app/handlers.go:77-93 | `ErrRecordNotFound` gives 404 with the not-found message, any other error the generic 500, and success 200 with no headers whose body is exactly the entries serialized in order under `entries`; each object has exactly the keys of an entry's JSON form, with no timestamp, and decodes to the entry without its timestamp |
| `Handlers.App.CreateEntry` | app/handlers.go:16-75 | the response is CreateDecision's for the session's flag before the call; when the decision stores, one row built from the input's six fields is appended and the session's flag becomes true; otherwise the table and every flag are unchanged; no flag is ever reset |
| `Handlers.App.ListEntries` | app/handlers.go:77-94 | 200 exactly when GetAll succeeds, and then the body is the whole table serialized in order; otherwise the generic 500, never 404; no headers are set; the session store is not touched |
| `Stores.NextOrder` | app/frontend/src/store.ts:11-19 | `change` always lands in `newest, best, worst` and never stays put; any state outside them goes to `newest` |
| `Stores.NextOrderFollowsCycle` | app/frontend/src/store.ts:11-19 | `change` moves `newest` to `best`, `best` to `worst` and `worst` back to `newest` |
| `Stores.NextOrderPeriodThree` | app/frontend/src/store.ts:11-19 | three changes bring each of the three sort orders back to itself |
| `Stores.SortOrderStore.constructor` | app/frontend/src/store.ts:4-6 | the initial sort order is `newest` |
| `Stores.SortOrderStore.SortOrder` | app/frontend/src/store.ts:7-9 | the `sortOrder` getter returns the store's current state and, reading only, changes nothing |
| `Stores.SortOrderStore.Change` | app/frontend/src/store.ts:11-19 | the new sort order is NextOrder of the old one and is one of the three orders |
| `Stores.ChangeThrice` | app/frontend/src/store.ts:11-19 | three `change` calls on a store in one of the three orders leave its sort order as it was |
| `Stores.ModalStore.constructor` | app/frontend/src/store.ts:25-27 | the modal starts hidden |
| `Stores.ModalStore.ModalState` | app/frontend/src/store.ts:28-30 | the `modalState` getter returns the store's current state and, reading only, changes nothing |
| `Stores.ModalStore.Invert` | app/frontend/src/store.ts:32-34 | `invert` negates the modal state |
| `Stores.InvertTwice` | app/frontend/src/store.ts:32-34 | two `invert` calls leave the modal state as it was |

## Left out

- Writing responses (`writeJSON`) is not modelled, and neither is its failure. So the fallback to a server error after a failed write (app/handlers.go:20-23, 44-47, 71-74, 89-92) and the bare 500 in `errorResponse` (app/handlers.go:107-111) are not modelled.
- `readJSON` is not part of this model. Its outcome is an input, and a rating outside the int8 range is one of its errors.
- Logging (`logError`) has no observable effect in the model.
- Two create requests of one session can race between the check and the set of `hasEntry`. The model handles requests one at a time, so this race is not modelled.
- The session store's lifetime and expiry, and its Redis backing, are left out: a flag, once set, stays set.
- `Data.EntryModel.Insert`: ids are unbounded naturals. The exhaustion of the int64 id sequence is not modelled.
- `Data.EntryModel.Insert`: the id of a stored row is an input, any value from `nextId` on. The model promises that ids increase, not which value the sequence picks, so gaps left by failed statements are allowed.
- `serveVueJS`, the router, configuration, migrations and the embedded file systems (app/main.go, app/routes.go, app/fs_prod.go, app/fs_dev.go) are I/O and library wiring.
- `notAllowedResponse` is modelled only as the helper `NotAllowedResponse`. Only the router calls it, and the router is not modelled.
- The SQL text itself is left out. What is modelled is which columns each statement binds and what the table holds afterwards.
