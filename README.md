# game-repository: orphan-metadata sweep and configuration defaulting

This project models two routines of the game-repository service's `main.go`.

- **`cleanup`** is the periodic sweep of turn artifacts. It selects every
  `Metadata` row whose `turn_id` is null. It tries to remove each row's blob
  file and collects the ids of the rows whose removal succeeded or reported
  "does not exist". Then it deletes those rows inside the same transaction and
  returns the number of rows it selected.
- **`makeDefaults`** fills in the empty fields of the service `Configuration`
  in place.
  - An empty `ApiPrefix` becomes `"/"`.
  - An empty `ListenAddress` becomes `"localhost:3000"`.
  - An empty `DataDir` becomes `"data"`.
  - A zero `CleanupInterval` becomes one hour, 3 600 000 000 000 ns.

Files:

- `wrappers.dfy`: `Option`, used for the nullable `turn_id` and for the
  returned error.
- `cleanup.dfy` (module `Reclamation`) holds three layers.
  - The specification on values: `Unlinked`, `Reclaimable`, `Swept` and
    `SweptFiles`.
  - The lemmas about that specification.
  - The class `Store`. It holds the metadata table (a map from id to path and
    nullable turn id), the set of files on disk, and `faults`, the paths whose
    removal fails with an error other than "does not exist". Its methods are
    `Remove` (`os.Remove`), `SelectUnlinked` (the `turn_id IS NULL` select)
    and `Cleanup`.
- `config.dfy` (module `Config`): the `Configuration` class, `MakeDefaults`,
  and the function `WithDefaults` that specifies it.

How removal is modelled: removing a path in `faults` reports `OtherErr` and
changes nothing. Otherwise a path that is present is removed (`Removed`), and
a path that is absent reports `NotExist`. Database failures are two boolean
parameters of `Cleanup`. `selectFails` is a failure of the select or the
count. `deleteFails` is a failure of the delete or the commit. The order in
which the database returns the rows is left open: `SelectUnlinked` picks an
arbitrary order, and every contract holds whatever that order is.

The sweep is modelled as the code is written. The selection has no
`created_at` grace period: every unlinked row is swept, however recently it
was written (main.go:224).

## Model

| member | source | states |
|---|---|---|
| `Reclamation.Store.Cleanup` | main.go:215-246 | If the select fails, it returns 0 with the error and changes no row and no file. Otherwise the count is the number of unlinked rows. Exactly the paths of unlinked rows without a fault are gone from disk. One removal is tried per selected row: each path is tried exactly as many times as there are unlinked rows with that path, and no other path is tried. If the delete fails, the table is unchanged and the error is returned. Otherwise the table becomes `Swept`. |
| `Reclamation.Store.SelectUnlinked` | main.go:223-227 | It returns each row with a null turn id exactly once, with its columns as in the table. The number of rows returned equals the number of unlinked rows. |
| `Reclamation.Store.Remove` | main.go:235 | It reports `OtherErr` exactly for a path in `faults`. It reports `NotExist` only for an absent path. Afterwards the file is gone unless the removal reported `OtherErr`. The attempt is recorded. |
| `Reclamation.BatchElems` | main.go:233-240 | An id is appended to the deletion batch exactly when one of the selected rows has it and that row's removal did not fail with an unexpected error. |
| `Reclamation.BatchIsReclaimable` | main.go:234-242 | For rows that list the unlinked rows, the set of batched ids is exactly the unlinked rows whose path is not in `faults`. |
| `Reclamation.ClearedIsUnlinkedPaths` | main.go:234-240 | The paths the loop leaves absent are exactly the unlinked rows' paths that are not in `faults`. |
| `Reclamation.AttemptsPerPath` | main.go:234-235 | For rows that list the unlinked rows, the removals tried hold each path once for every unlinked row that has that path. |
| `Reclamation.LinkedRowKept` | main.go:224 | A row with a non-null turn id is still in the table after the sweep, with the same columns. |
| `Reclamation.DeletedIff` | main.go:234-242 | A row leaves the table if and only if its turn id is null and its removal does not fail with an unexpected error. |
| `Reclamation.SweptIsSubtable` | main.go:242 | The sweep adds no row and changes no surviving row. |
| `Reclamation.CountVersusDeleted` | main.go:219-245 | The number of rows deleted is the size of `Reclaimable`. The returned count equals the rows deleted plus the unlinked rows kept, so it is at least the number deleted. It equals that number if and only if no unlinked row's path is faulty. |
| `Reclamation.FaultyRowKept` | main.go:235-238 | An unlinked row whose removal fails stays in the table. Another unlinked row whose removal does not fail is still deleted, so the loop goes on past the failure. |
| `Reclamation.LinkedFileKept` | main.go:224-235 | The file of a linked row is untouched unless an unlinked row has the same path. |
| `Reclamation.NothingUnlinked` | main.go:222-245 | On a table without unlinked rows the count is 0. The table and the files are unchanged. |
| `Reclamation.SweepIdempotent` | main.go:222-245 | With the same removal failures, a second sweep deletes no further row and removes no further file. |
| `Config.WithDefaults` | main.go:248-265 | `ApiPrefix`, `ListenAddress` and `DataDir` come out non-empty, and `CleanupInterval` comes out non-zero. A field that was already set keeps its value. An empty or zero field takes its default. `PostgresUrl` and `EnableSwagger` are unchanged. |
| `Config.DefaultsIdempotent` | main.go:248-265 | Defaulting twice gives the same configuration as defaulting once. |
| `Config.DefaultsFixComplete` | main.go:248-265 | Defaulting leaves a configuration unchanged if and only if all four defaulted fields are already set. |
| `Config.DefaultsOfEmpty` | main.go:249-263 | An empty configuration gets `"localhost:3000"`, `"/"`, `"data"` and one hour in nanoseconds. |
| `Config.Configuration.MakeDefaults` | main.go:248-265 | The object's new value is `WithDefaults` of its old value. Every defaulted field is set, fields that were set are unchanged, and so are `PostgresUrl` and `EnableSwagger`. |

## Left out

- The ticker loop, the errgroup and signal handling (main.go:159-180) are left out. They are concurrency and timing. Their only logic is to log a sweep error and keep ticking.
- `startHttpServer`, route setup, CORS, Swagger, the Postman file server and the metrics endpoint are left out. These are network I/O and wiring over libraries whose code is not part of this model.
- Reading the configuration file, JSON decoding, opening the database, migration and creating the data directory are left out. These are I/O and foreign calls.
- Logging of removal errors is left out: `log.Print` is I/O, and the model only keeps the row.
- Reclamation.Store.Cleanup: on a select failure the count is modelled as 0. That is Go's zero value, because the database library skips the count once the query has failed. The library's own behaviour is not part of this model.
- Reclamation.Store.Cleanup: an empty deletion batch is modelled as deleting nothing. How the database library treats an empty id list is not part of this model.
- Reclamation.Store.Cleanup: when the delete or commit fails, the rows are left as they were. Files already removed stay removed and are not rolled back. Partial rollback inside the database library is not modelled.
- Reclamation.Store.Cleanup: the sweep's transaction is modelled as running alone against the table. In the source the delete is by id (main.go:242) and follows a separate select (main.go:224) and count (main.go:226). A row that a concurrent request links to a turn between the select and the delete is therefore still deleted, and `n` can differ from the number of rows found. `LinkedRowKept` and the count clause of `Cleanup` hold only under this isolation assumption; concurrent requests are not modelled.
- Reclamation.Store.Remove: the removal oracle is a fixed set of faulty paths. It does not model errors that change over time or depend on anything other than the path.
- Metadata columns the sweep does not read (size, creation time) are not modelled.
- `api/round/round.go` is left out. It is request and response plumbing: key parsing wraps the integer parser, validation always succeeds, and the conversion from the model copies fields.
- Upload, download and turn-deletion of artifacts live in the `turn` package. That package is not part of this model.
- A negative `CleanupInterval` is kept as it is by `MakeDefaults`, exactly as the code keeps it. What the ticker then does with it is outside this model.
