# Book catalog API: a Dafny model

This project models the request handling of a small book-catalog HTTP service.
The service keeps one table of books keyed by a client-supplied `id`. Clients
can list the table, fetch one book, import a batch of books (inserting only ids
not yet stored), and overwrite a book's name and author. Every request must
carry the one configured Basic-authentication credential pair. Each handler
bumps a request counter labelled by method and status. Unmatched requests go
to a fallback that answers 400 and bumps a separate not-found counter.

Modules, one per part of the program:

- `Catalog` (catalog.dfy): the `Book` and `BookList` records and the storage
  errors. `Reply` is one `ctx.JSON(status, body)` write. `Lists` says that a
  sequence enumerates the table.
- `Storage` (engine.dfy): the storage engine as a class over a
  `map<string, Book>` keyed by primary key. It offers `Get`, `Insert`, `Find`
  and `Update`, and each call takes a flag that says whether its I/O fails.
- `Metrics` (metrics.dfy): the two counter vectors as maps from label to
  count. `StatusOf` is the status label the response writer reports.
- `BatchImport` (batch_import.dfy): the import loop of `PostBook` as a
  specification function (`Step`, `Import`), with the lemmas about it.
- `Handlers` (handlers.dfy): `GetBook`'s three-way choice (`Lookup`) and the
  class `BookServer`. Its five handler methods are proved against the
  functions above.
- `Routes` (routes.dfy): the credential check, the route table in
  registration order, the router (`RouteIn`, `Dispatch`), the decision taken
  before any handler runs (`Decide`), and `Serve`, which runs one request
  from start to finish.

Storage failures are an input. The `Faults` value of a request says which
storage calls fail: the batch positions whose `Get` or `Insert` fails, and
whether `Find` or `Update` fails. `GetBook`'s single `Get` is position 0.
Requests are served one at a time.

A handler can call `ctx.JSON` more than once, because no error path returns
early. GetBook always writes exactly one reply. GetBooks and UpdateBook write
a 500 on a storage error and then their normal 200 reply. PostBook may write a
500 for each failed lookup, each failed insert and a failed listing, and then
its final 200. The handlers therefore return their writes as an ordered list.
Which write reaches the client, and which status the counter's `code` label
records, is up to the response writer, which is a library type.
The model keeps two writer policies open (the first write wins, or the last
write wins). It proves only that the recorded status is one of the written
statuses, and that it is the only status when there is a single write.

Three behaviours of the code are worth stating plainly, and the model keeps
them:
- An update of a missing id reports no error. It changes nothing and still
  answers 200 with the submitted book.
- A duplicate-key failure of `Insert` inside the batch import is written as a
  500, not absorbed. Between sequential requests it can only happen after the
  preceding `Get` failed.
- No error path returns early: after a 500 the handler goes on and writes its
  normal 200 reply.

The JSON binder in front of PostBook and UpdateBook reports no error of its
own, so those handlers always run. A body that is empty, malformed or of the
other shape reaches them as the zero `BookList` or the zero `Book`.

## Model

| member | source | states |
|---|---|---|
| `Storage.Engine.Get` | bookListApiServer/api-server/handler.go:36-39 | A lookup by primary key reports a row exactly when the call succeeds and the id is stored. The row it returns is the stored one. A failed call reports no row and an I/O error. |
| `Storage.Engine.Insert` | bookListApiServer/api-server/handler.go:65-68 | An insert adds the book under its id only when the call succeeds and the id is not yet stored. Otherwise it reports an I/O error or a duplicate key and leaves the table as it was. The table stays keyed by id. |
| `Storage.Engine.Find` | bookListApiServer/api-server/handler.go:18-21 | A successful listing holds every stored row once and nothing else, in an order the storage chooses. A failed one is empty and reports an I/O error. |
| `Storage.Engine.Update` | bookListApiServer/api-server/handler.go:92 | Only the name and author of the row with the given id are replaced. A missing id changes nothing and is not an error (0 rows affected). Only an I/O failure reports an error. |
| `Catalog.ListsHasOneEntryPerRow` | bookListApiServer/api-server/handler.go:18-24 | A listing of the table has exactly as many entries as the table has rows. |
| `Metrics.Bumped` | bookListApiServer/api-server/handler.go:30 | Incrementing a counter vector raises the chosen label by exactly one and leaves every other label unchanged. |
| `Metrics.StatusOf` | bookListApiServer/api-server/handler.go:30 | The status the writer reports is one of the statuses the handler wrote. With a single write it is that write's status. |
| `Metrics.Counters.CountRequest` | bookListApiServer/api-server/handler.go:84 | The request counter goes up by one at the given label. The not-found counter is untouched. |
| `Metrics.Counters.CountNotFound` | bookListApiServer/api-server/handler.go:112 | The not-found counter goes up by one at the given label. The request counter is untouched. |
| `BatchImport.Step` | bookListApiServer/api-server/handler.go:57-69 | One loop pass either leaves the table alone or adds the item under an id that was absent. It never replaces a row. Earlier error writes are kept, and every new write is a 500. |
| `BatchImport.FirstOccurrencesAt` | bookListApiServer/api-server/handler.go:56-69 | The reference map holds every id of the batch. Each id maps to the earliest item that carries it. |
| `BatchImport.ImportWithoutFaults` | bookListApiServer/api-server/handler.go:56-70 | Without storage failures the import writes no error. The table afterwards is the old table plus, for each new id, the first item of the batch with that id. A later duplicate is skipped because the lookup sees the earlier insert. |
| `BatchImport.ImportKeepsRows` | bookListApiServer/api-server/handler.go:57-64 | Whatever fails, every row stored before the import is still stored, unchanged. |
| `BatchImport.ImportOnlyAdds` | bookListApiServer/api-server/handler.go:56-70 | Every row the import adds is an item of the batch, filed under its own id. Ids outside the batch are not touched. |
| `BatchImport.ImportAttemptsEveryItem` | bookListApiServer/api-server/handler.go:61-69 | An error on one item does not stop the loop. Every item whose insert did not fail has its id stored afterwards. |
| `BatchImport.Import` | bookListApiServer/api-server/handler.go:56-70 | The loop over the batch items in order, each pass being `Step`. It writes at most two errors per item (one for the lookup, one for the insert), and every error it writes is a 500. |
| `BatchImport.ImportIdempotent` | bookListApiServer/api-server/handler.go:56-70 | After a fault-free first import, importing the same batch a second time leaves the table exactly as the first import left it, whatever fails the second time. |
| `Handlers.Lookup` | bookListApiServer/api-server/handler.go:39-45 | GetBook's choice: 500 exactly when the lookup fails. 200 exactly when the id is stored, with the stored record. 404 exactly when it is absent, with an empty body and never a book. |
| `Handlers.ImportThenGetNew` | bookListApiServer/api-server/handler.go:60-66 | After a fault-free import, fetching a new id gives 200 with exactly the first batch item carrying it. |
| `Handlers.ImportThenGetOld` | bookListApiServer/api-server/handler.go:57-64 | After any import, fetching an id that was already stored gives 200 with its record as it was before. |
| `Handlers.BookServer.GetBooks` | bookListApiServer/api-server/handler.go:14-31 | The table is unchanged. A successful listing is one 200 whose items are exactly the stored rows. A failed one writes 500 and then 200 with no items. The GET request counter goes up by one, and nothing else. |
| `Handlers.BookServer.GetBook` | bookListApiServer/api-server/handler.go:33-51 | The one write is GetBook's three-way choice on the path id. The table is unchanged. The GET counter goes up by one at that status. |
| `Handlers.BookServer.PostBook` | bookListApiServer/api-server/handler.go:53-86 | The table becomes the batch import of the items. The writes are the loop's errors, then a 500 if the listing fails, then a 200 whose items are the whole table afterwards, not just the imported items. The POST counter goes up by one. |
| `Handlers.BookServer.UpdateBook` | bookListApiServer/api-server/handler.go:88-103 | The row named by the path id gets the body's name and author. The body's own id plays no part. The reply echoes the submitted book, after a 500 if the update failed. The "Update" counter goes up by one. |
| `Handlers.BookServer.NotFoundFunc` | bookListApiServer/api-server/handler.go:105-113 | The fallback writes 400 with an empty body. Only the not-found counter goes up, by one, at the request method and raw URI. |
| `Routes.Authorized` | bookListApiServer/api-server/server.go:30-33 | A request is authenticated exactly when it carries credentials and they are the fixed pair "kamol" / "hasan". It has no contract; this is what its definition computes. |
| `Routes.Dispatch` | bookListApiServer/api-server/server.go:77-83 | The router over the route table `Routes.Table`, which lists the six registrations in order. Only GET and POST are registered. An id route hands on one path segment after `/books/`, and a literal route hands on nothing. |
| `Routes.BoundList` | bookListApiServer/api-server/server.go:79 | The JSON binder hands PostBook the decoded list. An empty, malformed or other-shape body becomes the zero `BookList`, with no items. |
| `Routes.BoundBook` | bookListApiServer/api-server/server.go:80 | The JSON binder hands UpdateBook the decoded book. Any other body becomes the zero `Book`. |
| `Routes.MethodLabel` | bookListApiServer/api-server/handler.go:84 | The `method` label a data handler puts on the request counter: "POST" for PostBook, "Update" for UpdateBook (handler.go:101), "GET" for GetBooks and GetBook (handler.go:30, 50). It has no contract; this is what its definition computes. |
| `Routes.Match` | bookListApiServer/api-server/server.go:77-80 | A literal pattern matches only its own path. A `:id` pattern captures one non-empty segment without a slash, after its prefix. |
| `Routes.RouteIn` | bookListApiServer/api-server/server.go:77-83 | The router falls back exactly when no route applies to the method and path. A route it picks applies, and its capture is the id handed on. |
| `Routes.FirstApplicableRoute` | bookListApiServer/api-server/server.go:77-83 | The first registered route that applies is the one taken. |
| `Routes.TableUnambiguous` | bookListApiServer/api-server/server.go:77-82 | No two registered routes apply to the same method and path, so each request has at most one route. |
| `Routes.DispatchListing` | bookListApiServer/api-server/server.go:77 | GET /books goes to GetBooks. |
| `Routes.DispatchShow` | bookListApiServer/api-server/server.go:78 | GET /books/<id> goes to GetBook, with the segment as the id. |
| `Routes.DispatchImport` | bookListApiServer/api-server/server.go:79 | POST /books goes to PostBook. |
| `Routes.DispatchReplace` | bookListApiServer/api-server/server.go:80 | POST /books/<id> goes to UpdateBook, with the segment as the id. |
| `Routes.DispatchMetrics` | bookListApiServer/api-server/server.go:81 | GET /metrics is a route of its own and never reaches the fallback. |
| `Routes.DispatchFavicon` | bookListApiServer/api-server/server.go:82 | GET /favicon.ico is a route of its own and never reaches the fallback. |
| `Routes.Decide` | bookListApiServer/api-server/server.go:76-83 | A request is challenged exactly when it lacks the fixed credential pair, and an authenticated request always reaches a handler. It reaches the fallback exactly when no route applies, labelled by its method and raw URI. PostBook and UpdateBook receive what the binder hands on. |
| `Routes.Serve` | bookListApiServer/api-server/server.go:76-83 | An unauthenticated request gets the challenge and changes no table row and no counter. So do /metrics and /favicon.ico. The fallback moves only the not-found counter. Each data handler moves the request counter by one with its method label, and the table changes as that handler's contract says. |

## Left out

- Request duration histograms: they observe wall-clock time as floating-point seconds.
- The metrics registry and the exposition format of GET /metrics. The counters are modelled as maps, and the /metrics response is an opaque `MetricsPage`.
- Logging of each request's remote address. It is output only.
- Process start-up: the database connection string, the SQL log file, table creation, the name mapper, and the listening socket.
- Static file serving and the other default middleware of the web framework. They are library behaviour outside the route table.
- Concurrency. Requests are served one at a time, so the race between two overlapping batch imports is not modelled. That race is a lookup that misses a row inserted by another request, followed by a duplicate-key failure.
- Routes.BoundList: a malformed body is handed on as the zero value. The JSON decoder may have filled part of the struct before it failed, and that partial value is not modelled. How JSON bytes decode is not modelled either: a body arrives already sorted into one of the two shapes.
- Routes.Authorized: parsing and base64 decoding of the `Authorization` header, and the exact challenge text, are not modelled. The check is equality with the fixed pair.
- Routes.Match: path matching is exact. Trailing slashes, escaping and query strings (which are not part of the path) are not modelled.
- Storage.Engine.Get: a lookup with an empty id is modelled as a lookup of the key "". The ORM would treat the empty string as "no condition" and return the first row.
- Storage.Engine.Update: the ORM skips zero-valued (empty) name or author fields and may also write a non-empty body `id` into the key column. The model always replaces both name and author and keeps the key.
- Storage.Engine.Find: on a failed listing the model returns no rows. The ORM may leave a partly filled slice.
- Metrics.StatusOf: which of several writes the writer reports (first or last) is left open as a parameter, and so is which write reaches the client.
- Status labels are kept as integers rather than their decimal strings.
