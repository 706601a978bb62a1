# Album catalog store

A Dafny model of the in-memory album catalog behind a small HTTP JSON API
written in Go with the gin framework. The service keeps an ordered collection
of album records (identifier, title, artist, year, price), seeded with three
albums at start-up, and three handlers act on it:

- **List** (`getAlbums`) replies 200 with the whole collection in order.
- **Get by id** (`getAlbumByID`) scans the collection in insertion order and
  replies 200 with the first album whose identifier equals the path
  parameter, or 404 with `{"message": "album not found"}` when none does.
- **Create** (`postAlbums`) appends an album decoded from the request body and
  echoes it with 201; when decoding fails it returns without touching the
  collection or writing a reply itself.

The model is a functional state machine. The collection is an immutable
`seq<Album>` (`Albums.Catalog`), each handler is a pure function from a
collection to an `Outcome` (the collection afterwards and the reply written,
if any), and `Session.Run` folds a sequence of requests over the seed
collection. The lookup is given twice: `Handlers.GetAlbumByID` is the
reference built on the recursive scan `Handlers.FindFirst`, and
`Handlers.GetAlbumByIDLoop` is the early-return loop of the Go handler,
proved equal to it.

Files:

- `wrappers.dfy`: `Option`.
- `album.dfy`: the album record, the seed collection, and the predicates
  `HasId` and `IsFirstMatch` that the contracts are stated in.
- `response.dfy`: status codes, reply bodies and the fixed not-found reply.
- `handlers.dfy`: the three handlers and the lemmas relating them.
- `session.dfy`: request dispatch, runs of requests, and the concrete
  scenarios the repository's tests exercise.

Inputs that come from outside the store are parameters: the identifier of a
lookup is a plain string (already taken from the path), and the body of a
create is an `Option<Album>` (already decoded, `None` when decoding failed).

## Model

| member | source | states |
|---|---|---|
| Albums.SeedContents | main.go:57-61 | the initial collection holds three albums, in order with ids "1", "2", "3", the first being Blue Train / John Coltrane / "1977" / 56.99 |
| Handlers.GetAlbums | main.go:51-54 | List replies with status 200 and the entire collection in its current order, and leaves the collection unchanged |
| Handlers.FindFirst | main.go:32-37 | the in-order scan yields no position exactly when no album carries the id, and otherwise the earliest position whose album carries it |
| Handlers.GetAlbumByID | main.go:27-39 | Get by id leaves the collection unchanged; it replies 200 exactly when some album carries the id, and then with the first such album in insertion order (later duplicates are never returned); otherwise it replies 404 with message "album not found" |
| Handlers.GetAlbumByIDLoop | main.go:27-39 | the early-return loop over the collection replies exactly as the reference lookup does |
| Handlers.PostAlbums | main.go:11-23 | a failed decode leaves the collection unchanged and writes no reply; a decoded album makes the collection one longer, keeps the old records as its prefix, puts the album last, and is echoed with status 201 |
| Handlers.ReadsPreserveListing | main.go:27-54 | a listing taken after a listing or after a lookup equals the listing taken before, so List is idempotent |
| Handlers.FindFirstAppend | main.go:11-39 | after an append the scan finds the old first match if there was one, else the new album's position if it carries the id, else nothing |
| Handlers.GetAfterPost | main.go:11-39 | after a create, looking up the new album's id returns the new album only if no older album carried that id; every other lookup replies as before |
| Session.HandleAppendsCreated | main.go:11-54 | each handler changes the collection only by appending the album of a successful create |
| Session.RunAppendsCreated | main.go:11-23 | after any sequence of requests the collection is the starting one followed by the successfully created albums in request order |
| Session.ListAfterRun | main.go:51-61 | a listing after any run from the seed returns the seeded albums and then every created album, in creation order, with status 200 |
| Session.SeedLookups | main_test.go:70-102 | on the seed collection, id "1" yields Blue Train by John Coltrane with 200, and id "999" yields 404 "album not found" |
| Session.PostOnSeed | main_test.go:106-152 | creating album "4" on the seed collection echoes it with 201, and the collection then has four records, the fourth being album "4" |

## Left out

- Handlers.GetAlbums: the explicit `Content-Type: application/json` header the handler sets is not modelled; replies carry only a status and a body.
- Route registration, method/path dispatch and extraction of the `:id` path parameter (main.go:78-80): framework behaviour; `Session.Handle` takes the request already classified and the id as a string.
- JSON encoding of replies and `BindJSON` decoding of request bodies: framework behaviour. The decoded album is an `Option<Album>` input; the reply sent when decoding fails is produced by the binding layer, not the handler, and is modelled as "no reply written".
- Prices: the source stores a 64-bit float that is only stored and echoed; the model uses an integer number of hundredths (56.99 as 5699) and never does arithmetic on it.
- The `/api/` handler replying `{"message": "pong"}`: a constant reply with no access to the collection.
- Static file serving, `gin.Default()` and `router.Run` on port 3000: I/O.
- Concurrency: requests can run concurrently in the source with no locking on the shared slice; the model handles requests one at a time.
