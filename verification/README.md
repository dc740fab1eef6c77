# mongorest, modelled in Dafny

The repository holds two small REST services.

- **People** (`restapi.go`) keeps an ordered, process-wide list of person records in memory. It has four endpoints:
  - `GET /people` returns the list.
  - `GET /people/{id}` returns the first record with that id, or an empty record when none matches.
  - `POST /people/{id}` appends the decoded body, with its id forced to the path id.
  - `DELETE /people/{id}` cuts out the first record with that id.
- **Books** (`mongorest.go`) puts five handlers in front of a document store. Each handler decodes the request, issues at most one store operation and turns the outcome into exactly one response.

Files:

- `wrappers.dfy` — `Option`, for nil pointers and failed decodes.
- `http.dfy` — `Response` (status, header map, body chunks) and a `ResponseWriter` class. The writer keeps a header map that can change until `WriteHeader` freezes it. The first `WriteHeader` wins. `Write` implies status 200 when no status was written yet.
- `people.dfy` — the people registry:
  - `Registry` is a class whose `people: seq<Person>` field the endpoint methods reassign.
  - `GetPerson` and `DeletePerson` run the same scans as the source, with loop invariants.
  - Each method is proved against a specification function: `Lookup`, `NewRecord` or `Removed`. These rest on `FindFirst`, which finds the first match in list order.
  - Lemmas connect the operations: how many matches a delete removes, what a lookup sees after a create, and that a delete undoes a create.
- `books.dfy` — the book handlers, in two layers:
  - Pure decision functions (`AllBooks`, `AddBook`, `BookByIsbn`, `UpdateBook`, `DeleteBook`). Each maps the decode result and the store outcome to a `Reply`: the store operation issued, if any, and the response.
  - Imperative `Serve…` methods that drive a `ResponseWriter` through `ErrorWithJson` and `ResponseWithJson` the way the source does. Each method is proved to send exactly the response its decision function gives.

The store is not modelled. Each store outcome is an input (`Ok`, or `Err` of `ErrNotFound`, `ErrDuplicateKey` or `ErrOther`). So nothing here claims that a lookup finds a stored book.

The model keeps these quirks of the code:

- The store selector key is literally `"isbn:"`.
- A lookup that finds nothing returns an error from the store, so `GET /books/:isbn` answers 500. It answers 404 only when the store hands back a book with an empty ISBN.
- Update stores the decoded body as it is, whatever ISBN the path names.
- Create puts the request path followed by `/` and the ISBN in `Location`, and sets `Content-Type: application/json` without a charset.
- Update and delete answer 204 with no header at all.

## Model

| member | source | states |
|---|---|---|
| People.FindFirst | restapi.go:29-34 | the result is present exactly when some record has the id, and then it is the position of the first such record in list order |
| People.Lookup | restapi.go:29-35 | the looked-up record is the first record with the id when one exists, and otherwise the zero-value person |
| People.NewRecord | restapi.go:46-48 | the appended record always has the path id; its other fields come from the value the decoder left behind (`Some`, partly filled ones included, since the decode error is discarded), or are all zero when it left the zero value (`None`) |
| People.Removed | restapi.go:55-61 | when the id occurs, the result is the list with only its first match cut out (`s[..i] + s[i+1..]`, one shorter); otherwise it is the list unchanged |
| People.RemovedDropsOneMatch | restapi.go:55-61 | a delete lowers the number of records holding the id by exactly one when there is any, and otherwise leaves it unchanged |
| People.LaterMatchesSurvive | restapi.go:56-59 | when two or more records hold the id, one still holds it after the delete, because the loop stops at the first match |
| People.RemovedIsLookupTakenOut | restapi.go:55-59 | the record a delete takes out is exactly the one a lookup of the same id answers with, and nothing else changes as a multiset |
| People.CreateAllowsDuplicates | restapi.go:49 | create performs no uniqueness check: the number of records with the id grows by one even when the id is already present |
| People.LookupAfterCreate | restapi.go:29-35 | after a create, a lookup of that id finds the new record only if no earlier record holds the id; otherwise the earlier record shadows it |
| People.DeleteUndoesCreate | restapi.go:55-59 | deleting an id that only the just-created record holds gives back the list as it was before the create |
| People.Registry.constructor | restapi.go:24 | the global list starts out empty |
| People.Registry.WithTestData | restapi.go:69-72 | the list after start-up seeding holds the four test records, in order |
| People.Registry.GetPerson | restapi.go:26-36 | the scan returns the lookup's record (the first match, or the zero value), and a record with the id when one exists; the list is not changed |
| People.Registry.GetPeople | restapi.go:38-41 | returns the entire current list and does not change it |
| People.Registry.CreatePerson | restapi.go:43-51 | the list becomes the old list plus the new record at the end: one longer, with every earlier entry kept; the response is the whole new list |
| People.Registry.DeletePerson | restapi.go:53-63 | the list becomes the old list with its first match removed, or stays the same when nothing matches; the response is the whole resulting list |
| Books.ErrorWithJson | mongorest.go:25-29 | sends exactly the response `ErrorJson` builds: the given status, the header `Content-Type: application/json; charset=utf-8` and a single error object `{message: "…"}` carrying the message |
| Books.ResponseWithJson | mongorest.go:31-35 | sends exactly the response `BodyJson` builds: the given status, the JSON content type with charset, and the given payload unchanged as the body |
| Books.AllBooksOutcomes | mongorest.go:64-76 | `AllBooks`: issues a find-all; listing answers 500 "Database error" when the store fails, and 200 with exactly the books the store returned otherwise |
| Books.AddBookOutcomes | mongorest.go:85-103 | `AddBook`: a body that fails to decode answers 400 "Incorrect Body" and no store operation is issued, whatever the store would say; a decoded body is inserted unchanged; a duplicate-key insert error answers 400 with the duplicate message, any other insert error 500 "database error"; 201 happens exactly when the body decoded and the insert succeeded |
| Books.AddBookCreated | mongorest.go:104-106 | `AddBook`: a successful create answers 201 with no body, `Content-Type: application/json` and `Location` equal to the request path, then `/`, then the decoded ISBN |
| Books.BookByIsbnOutcomes | mongorest.go:118-136 | `BookByIsbn`: issues the lookup selected by `{"isbn:": isbn}`; answers 500 "database error" exactly on a store error (not-found included), 404 "book not found" exactly when the store returns a book with an empty ISBN, and 200 with that book otherwise |
| Books.UpdateBookOutcomes | mongorest.go:145-169 | `UpdateBook`: a body that fails to decode answers 400 "incorrect body" with no store operation; a decoded body replaces the document selected by `{"isbn:": isbn}`, unchanged; not-found answers 404 "book not found", any other error 500 "database error", success 204 with no body and no header; each status happens exactly in its case |
| Books.DeleteBookOutcomes | mongorest.go:178-193 | `DeleteBook`: issues the removal selected by `{"isbn:": isbn}`; not-found answers 404 "book not found", any other error 500 "database error", success 204 with no body and no header; each status happens exactly in its case |
| Books.AllRepliesWellFormed | mongorest.go:56-195 | each handler's decision function (`AllBooks`, `AddBook`, `BookByIsbn`, `UpdateBook`, `DeleteBook`), on every input, answers with one of 200, 201, 204, 400, 404 or 500. Error statuses carry exactly one error object `{message: "…"}` with a fixed message, never the store's error text. Every response with a body is declared as JSON with a charset |
| Books.ServeAllBooks | mongorest.go:56-78 | the handler sends exactly the response `AllBooks` decides and issues a find-all |
| Books.ServeAddBook | mongorest.go:80-108 | the handler sends exactly the response `AddBook` decides and issues the insert only when the body decoded |
| Books.ServeBookByIsbn | mongorest.go:110-138 | the handler sends exactly the response `BookByIsbn` decides and issues the `{"isbn:": isbn}` lookup |
| Books.ServeUpdateBook | mongorest.go:140-171 | the handler sends exactly the response `UpdateBook` decides and issues the update only when the body decoded |
| Books.ServeDeleteBook | mongorest.go:173-195 | the handler sends exactly the response `DeleteBook` decides and issues the `{"isbn:": isbn}` removal |

## Left out

- The document store is not modelled: queries, inserts, the unique sparse index on `ISBN` (mongorest.go:37-54), `DropDups`, and session `Copy`/`Close`. Store outcomes are inputs, so the create-then-get, duplicate-insert and list-length round trips through the store are not stated.
- `ensureIndex` and both `main` functions are not modelled: environment printing, connecting to the store, read-preference mode, router wiring and listening. The people seeding is kept as `Registry.WithTestData`.
- JSON encoding and decoding are not modelled. A body's decode is an `Option`. A response body is an abstract chunk: an error object with its message, or the books. The `%q` quoting, the indentation and the malformed struct tags are not represented.
- The error body that `ErrorWithJSON` writes, `{message: "…"}`, is not valid JSON, because its key is unquoted, although the response declares a JSON content type. The model keeps the body as an abstract error object and does not capture this.
- A marshalling failure ends the process through `log.Fatal`. This is not modelled, because marshalling a book or a list of books cannot fail.
- Logging (`log.Println`) is not modelled.
- Some `ResponseWriter` behaviour is not modelled: automatic headers such as `Date`, content sniffing, the log line for a second `WriteHeader`, refusing a body on a 204 response, and informational 1xx status codes (the writer model accepts final codes 200-999 only). The handlers never depend on any of these.
- Concurrency is not modelled. Unsynchronised access to the global people list from parallel requests is outside the model, which covers sequential calls only.
- `Registry.DeletePerson` does not model aliasing. The source splices through the slice's shared backing array. The model reassigns a fresh sequence, and no earlier slice of the list survives a request in the source.
