# Form submissions backend — a Dafny model of the submission table

The backend is a small Express service that keeps form submissions (name,
email, phone, GitHub link, stopwatch time) in one JSON file. Every handler
loads the whole collection, works on it in memory and, when it changes
something, writes the whole collection back. This project models that
in-memory logic:

- `table.dfy`, module `Table`: the `Submission` record, the request body
  (`Fields`), the responses and their status codes, and the lookups that only
  read the loaded collection: `FindIndex` (first record with an id, as
  `findIndex` does), `Matching` (the email filter), `ReadAt` (`GET /read`) and
  `Search` (`GET /search`). It also holds the lemmas about the id rule and the
  "strictly increasing ids" invariant under which ids are unique.
- `store.dfy`, module `Server`: class `Store`, whose `submissions` field is the
  backing file (`readDatabase` reads the field, `writeDatabase` assigns it).
  Its methods `Submit`, `Delete` and `Edit` are the `POST /submit`,
  `DELETE /delete/:id` and `PUT /edit/:id` handlers, each one atomic step.
  `ScenarioCreate`, `ScenarioIdReuse` and `ScenarioDeleteThenRead` state
  short request sequences (ids handed out in turn, a refused body, id reuse,
  delete then read) and verify their outcomes against the method contracts.

Inputs are modelled as the handlers see them after parsing. A body field that
is missing or falsy is the empty string. A parsed id or index is an
`Option<int>`, where `None` is `NaN`. The read handler's `index` is a `Param`,
because it tells "not given" (400) apart from "given but not a number" (404).
A missing or empty `email` query parameter is the empty string.

The id rule is the code's: the last record's id plus one, or 1 when the
collection is empty, not the maximum id plus one. The comment at
`index.ts:43` promises a unique id. That holds only while the ids in file
order are strictly increasing, so the model proves that every handler keeps
that invariant, that the generated id then differs from every id present,
and that under it a delete leaves no record with the deleted id.

Edge cases of the code that the model keeps as written:
- The comment at `index.ts:43` promises a unique id, but the last-id-plus-one
  rule reuses an id once the last record is deleted
  (`IdReusedAfterDeletingLast`, `ScenarioIdReuse`).
- `!email` refuses an empty email with the same 400 as a missing one.
- `index === undefined` lets an empty index through; it parses to `NaN` and
  gets 404.

## Model

| member | source | states |
|---|---|---|
| `Table.Status` | form-submissions-backend/src/index.ts:35-128 | 201 exactly for a created record, 200 for the other successes, 404 exactly for "not found" and "no matches", 400 for every other error |
| `Table.FindIndex` | form-submissions-backend/src/index.ts:77 | the result is -1 exactly when no record carries the id; otherwise it is a position carrying the id with no earlier position carrying it |
| `Table.Matching` | form-submissions-backend/src/index.ts:121 | the filter keeps a record exactly when its email equals the query, each matching record as many times as it occurs, and nothing else |
| `Table.MatchingIsSubsequence` | form-submissions-backend/src/index.ts:121 | the filter result keeps collection order (it is a subsequence of the collection) |
| `Table.Complete` | form-submissions-backend/src/index.ts:38 | a body is refused exactly when one of name, email, phone, githubLink or stopwatchTime is empty (the same test guards edit at :94) |
| `Table.WithId` | form-submissions-backend/src/index.ts:45 | the built record carries the given id and exactly the body's five fields (the same construction replaces the record at :105) |
| `Table.NextId` | form-submissions-backend/src/index.ts:43 | 1 on an empty collection, otherwise above the last record's id (it is the last id plus one); under strictly increasing ids it is above every id present |
| `Table.ReadAt` | form-submissions-backend/src/index.ts:52-67 | no index gives the missing-parameter error; an unparseable, negative or too large index gives not-found; any other index gives exactly the record at that position |
| `Table.Search` | form-submissions-backend/src/index.ts:113-128 | an empty query gives the missing-parameter error; not-found exactly when no record has the email; otherwise exactly the filtered records, never an empty list, in collection order |
| `Table.RemoveIsSubsequence` | form-submissions-backend/src/index.ts:83 | splicing out one record keeps the relative order of the others |
| `Table.NextIdFresh` | form-submissions-backend/src/index.ts:43-46 | under strictly increasing ids the generated id is above every id present, and appending the new record keeps the ids strictly increasing |
| `Table.RemoveKeepsIncreasing` | form-submissions-backend/src/index.ts:83 | splicing out a record keeps the ids strictly increasing |
| `Table.ReplaceKeepsIncreasing` | form-submissions-backend/src/index.ts:105 | replacing a record by one with the same id keeps the ids strictly increasing |
| `Table.IncreasingIdsIdentify` | form-submissions-backend/src/index.ts:77 | under strictly increasing ids the first match of a record's id is that record and no other record shares the id |
| `Table.ReadAfterAppend` | form-submissions-backend/src/index.ts:46 | after an append, reading the last position returns the appended record |
| `Table.FindAfterReplace` | form-submissions-backend/src/index.ts:99-105 | after the edit's replacement, looking the id up again finds the same position holding the new record |
| `Table.IdReusedAfterDeletingLast` | form-submissions-backend/src/index.ts:43 | with ids 1 and 2, the next id is 3; after deleting id 2 it is 2 again |
| `Server.Store.constructor` | form-submissions-backend/src/index.ts:22-25 | the store starts from whatever collection the file holds |
| `Server.Store.Submit` | form-submissions-backend/src/index.ts:35-50 | an empty field gives the field-required error and changes nothing; otherwise the id is 1 on an empty collection and the last id plus one otherwise, the collection gains exactly the new record at the end, reading the last position returns it, and strictly increasing ids stay so with the new id distinct from all others |
| `Server.Store.Delete` | form-submissions-backend/src/index.ts:69-87 | no parsed id gives invalid-input, an absent id gives not-found, and both change nothing; otherwise exactly the first record with the id is removed, the length drops by one, the order of the survivors is kept, and strictly increasing ids stay so with no record left carrying the id |
| `Server.Store.Edit` | form-submissions-backend/src/index.ts:90-109 | no parsed id or an empty field gives field-required, an absent id gives not-found, and both change nothing; otherwise the first matching position gets a record with the original id and exactly the new fields, every other position and the length are unchanged, looking the id up finds the new record, and strictly increasing ids stay so |

## Left out

- File I/O and JSON encoding (`readDatabase`, `writeDatabase`): the file is the `submissions` field. Read and write failures, and a file that does not decode, are uncaught errors of the host and are not modelled.
- Express wiring, body parsing, the port and `app.listen`: responses are modelled as a `Response` value and its status code, without the message strings.
- `GET /ping`: it always answers a constant success and has no logic.
- JavaScript `parseInt` (for example `"12abc"` parses to 12) and the truthiness of non-string body values: the model takes the parsed `Option<int>` and string fields as given. A non-string body value, stored as is by the code, is not modelled.
- A repeated query parameter, which Express turns into an array: the email and index parameters are modelled as single values.
- Ids are unbounded integers. JavaScript numbers lose precision above 2^53, and an id stored in the file as a string would be concatenated rather than added; neither is modelled.
- Overlapping requests and the lost-update race between their load, change and save cycles: each handler is one atomic step of the model.
