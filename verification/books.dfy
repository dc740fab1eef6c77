/**
 * The `/books` service: five handlers, each of which decodes its input,
 * issues at most one store operation and turns the outcome into exactly one
 * response. The store is not modelled: the outcome of the operation a
 * handler issues is an input.
 */
module Books {
  import opened Wrappers
  import opened Http

  datatype Book = Book(isbn: string, title: string, authors: seq<string>, price: string)

  /** A body chunk: an error object `{message: "…"}` carrying a message, or a JSON rendering of books. */
  datatype Payload = ErrorMessage(message: string) | BookList(books: seq<Book>) | OneBook(book: Book)

  /** The kinds of store error the handlers tell apart (a duplicate key, not found) and all the rest. */
  datatype StoreError = ErrNotFound | ErrDuplicateKey | ErrOther

  /** What a store operation gives back: its result, or an error. */
  datatype StoreResult<T> = Ok(value: T) | Err(error: StoreError)

  /** The selector `{key: value}` the handlers query with. */
  datatype Selector = Selector(key: string, value: string)

  /** The selector key as the handlers spell it, colon included. */
  const SelectorKey := "isbn:"

  /** The store operation a handler issues. */
  datatype StoreOp =
    | FindAll
    | Insert(doc: Book)
    | FindOne(query: Selector)
    | Update(query: Selector, doc: Book)
    | Remove(query: Selector)

  /** A handler's decision: the store operation it issued, if any, and the response. */
  datatype Reply = Reply(issued: Option<StoreOp>, response: Response<Payload>)

  const JsonUtf8 := "application/json; charset=utf-8"
  const Json := "application/json"

  const MsgIncorrectBody := "Incorrect Body"
  const MsgIncorrectBodyUpdate := "incorrect body"
  const MsgDuplicate := "a book with this ISBN already exists in the database"
  const MsgDatabaseErrorList := "Database error"
  const MsgDatabaseError := "database error"
  const MsgNotFound := "book not found"

  /** The response ErrorWithJSON produces. */
  function ErrorJson(message: string, code: int): Response<Payload> {
    Response(code, map[ContentType := JsonUtf8], [ErrorMessage(message)])
  }

  /** The response ResponseWithJSON produces. */
  function BodyJson(payload: Payload, code: int): Response<Payload> {
    Response(code, map[ContentType := JsonUtf8], [payload])
  }

  function BySelector(isbn: string): Selector {
    Selector(SelectorKey, isbn)
  }

  /** GET /books. */
  function AllBooks(found: StoreResult<seq<Book>>): Reply {
    Reply(Some(FindAll),
      match found
      case Err(_) => ErrorJson(MsgDatabaseErrorList, StatusInternalServerError)
      case Ok(books) => BodyJson(BookList(books), StatusOK))
  }

  /** PUT /books, at request path `path`. */
  function AddBook(path: string, decoded: Option<Book>, inserted: StoreResult<()>): Reply {
    match decoded
    case None => Reply(None, ErrorJson(MsgIncorrectBody, StatusBadRequest))
    case Some(book) =>
      Reply(Some(Insert(book)),
        match inserted
        case Err(ErrDuplicateKey) => ErrorJson(MsgDuplicate, StatusBadRequest)
        case Err(_) => ErrorJson(MsgDatabaseError, StatusInternalServerError)
        case Ok(_) =>
          Response(StatusCreated, map[ContentType := Json, Location := path + "/" + book.isbn], []))
  }

  /** GET /books/:isbn. */
  function BookByIsbn(isbn: string, found: StoreResult<Book>): Reply {
    Reply(Some(FindOne(BySelector(isbn))),
      match found
      case Err(_) => ErrorJson(MsgDatabaseError, StatusInternalServerError)
      case Ok(book) =>
        if book.isbn == "" then ErrorJson(MsgNotFound, StatusNotFound)
        else BodyJson(OneBook(book), StatusOK))
  }

  /** The answer of update and delete to the outcome of their store operation. */
  function WriteOutcome(outcome: StoreResult<()>): Response<Payload> {
    match outcome
    case Err(ErrNotFound) => ErrorJson(MsgNotFound, StatusNotFound)
    case Err(_) => ErrorJson(MsgDatabaseError, StatusInternalServerError)
    case Ok(_) => Response(StatusNoContent, map[], [])
  }

  /** PUT /books/:isbn. */
  function UpdateBook(isbn: string, decoded: Option<Book>, updated: StoreResult<()>): Reply {
    match decoded
    case None => Reply(None, ErrorJson(MsgIncorrectBodyUpdate, StatusBadRequest))
    case Some(book) => Reply(Some(Update(BySelector(isbn), book)), WriteOutcome(updated))
  }

  /** DELETE /books/:isbn. */
  function DeleteBook(isbn: string, removed: StoreResult<()>): Reply {
    Reply(Some(Remove(BySelector(isbn))), WriteOutcome(removed))
  }

  // ---------------------------------------------------------------------------
  // Properties of the decisions
  // ---------------------------------------------------------------------------

  /** The messages an error body may carry: fixed texts, never the store's own error text. */
  const ErrorMessages := {MsgIncorrectBody, MsgIncorrectBodyUpdate, MsgDuplicate,
                          MsgDatabaseErrorList, MsgDatabaseError, MsgNotFound}

  /**
   * What every response of the service looks like: an error status comes with
   * an error object `{message: "…"}` carrying one of the fixed messages; a
   * response with a body is declared as JSON; a success carries no error object.
   */
  ghost predicate WellFormed(r: Response<Payload>) {
    r.status in {StatusOK, StatusCreated, StatusNoContent, StatusBadRequest, StatusNotFound,
                 StatusInternalServerError} &&
    (r.status >= 400 <==> (|r.body| == 1 && r.body[0].ErrorMessage?)) &&
    (r.status >= 400 ==> r.body[0].message in ErrorMessages) &&
    (r.body != [] ==> ContentType in r.header && r.header[ContentType] == JsonUtf8)
  }

  lemma AllRepliesWellFormed(path: string, isbn: string, decoded: Option<Book>,
                             books: StoreResult<seq<Book>>, book: StoreResult<Book>,
                             outcome: StoreResult<()>)
    ensures WellFormed(AllBooks(books).response)
    ensures WellFormed(AddBook(path, decoded, outcome).response)
    ensures WellFormed(BookByIsbn(isbn, book).response)
    ensures WellFormed(UpdateBook(isbn, decoded, outcome).response)
    ensures WellFormed(DeleteBook(isbn, outcome).response)
  {
  }

  /**
   * Create: a body that does not decode is refused with 400 before any store
   * operation, whatever the store would say; a decoded body is inserted
   * unchanged, and the insert error decides between 400 and 500.
   */
  lemma AddBookOutcomes(path: string, decoded: Option<Book>, inserted: StoreResult<()>)
    ensures decoded.None? ==> AddBook(path, decoded, inserted) == Reply(None, ErrorJson(MsgIncorrectBody, StatusBadRequest))
    ensures decoded.Some? ==> AddBook(path, decoded, inserted).issued == Some(Insert(decoded.value))
    ensures decoded.Some? && inserted == Err(ErrDuplicateKey) ==>
      AddBook(path, decoded, inserted).response == ErrorJson(MsgDuplicate, StatusBadRequest)
    ensures decoded.Some? && inserted.Err? && inserted.error != ErrDuplicateKey ==>
      AddBook(path, decoded, inserted).response == ErrorJson(MsgDatabaseError, StatusInternalServerError)
    ensures AddBook(path, decoded, inserted).response.status == StatusCreated <==> decoded.Some? && inserted.Ok?
  {
  }

  /** A successful create answers 201 with no body and a Location naming the new book under the request path. */
  lemma AddBookCreated(path: string, book: Book)
    ensures var r := AddBook(path, Some(book), Ok(())).response;
      r.status == StatusCreated && r.body == [] &&
      r.header == map[ContentType := "application/json", Location := path + "/" + book.isbn]
  {
  }

  /**
   * Lookup by ISBN answers 500 for every store error, not-found included; 404
   * only when the store returns a book whose ISBN is empty; 200 with that book
   * otherwise.
   */
  lemma BookByIsbnOutcomes(isbn: string, found: StoreResult<Book>)
    ensures BookByIsbn(isbn, found).issued == Some(FindOne(Selector("isbn:", isbn)))
    ensures var r := BookByIsbn(isbn, found).response;
      (r.status == StatusInternalServerError <==> found.Err?) &&
      (r.status == StatusNotFound <==> found.Ok? && found.value.isbn == "") &&
      (r.status == StatusOK <==> found.Ok? && found.value.isbn != "") &&
      (r.status == StatusInternalServerError ==> r.body == [ErrorMessage(MsgDatabaseError)]) &&
      (r.status == StatusNotFound ==> r.body == [ErrorMessage(MsgNotFound)]) &&
      (r.status == StatusOK ==> r.body == [OneBook(found.value)])
    ensures BookByIsbn(isbn, Err(ErrNotFound)).response.status == StatusInternalServerError
  {
  }

  /**
   * Update: a body that does not decode is refused with 400 before any store
   * operation; a decoded body replaces the document the `isbn:` selector picks.
   * Not found is 404, any other error 500, success 204 with no body and no header.
   */
  lemma UpdateBookOutcomes(isbn: string, decoded: Option<Book>, updated: StoreResult<()>)
    ensures decoded.None? ==> UpdateBook(isbn, decoded, updated) == Reply(None, ErrorJson(MsgIncorrectBodyUpdate, StatusBadRequest))
    ensures decoded.Some? ==> UpdateBook(isbn, decoded, updated).issued == Some(Update(Selector("isbn:", isbn), decoded.value))
    ensures var r := UpdateBook(isbn, decoded, updated).response;
      (r.status == StatusBadRequest <==> decoded.None?) &&
      (r.status == StatusNotFound <==> decoded.Some? && updated == Err(ErrNotFound)) &&
      (r.status == StatusInternalServerError <==> decoded.Some? && updated.Err? && updated.error != ErrNotFound) &&
      (r.status == StatusNoContent <==> decoded.Some? && updated.Ok?) &&
      (r.status == StatusNotFound ==> r.body == [ErrorMessage(MsgNotFound)]) &&
      (r.status == StatusInternalServerError ==> r.body == [ErrorMessage(MsgDatabaseError)]) &&
      (r.status == StatusNoContent ==> r.body == [] && r.header == map[])
  {
  }

  /** Delete: not found is 404, any other error 500, success 204 with no body and no header. */
  lemma DeleteBookOutcomes(isbn: string, removed: StoreResult<()>)
    ensures DeleteBook(isbn, removed).issued == Some(Remove(Selector("isbn:", isbn)))
    ensures var r := DeleteBook(isbn, removed).response;
      (r.status == StatusNotFound <==> removed == Err(ErrNotFound)) &&
      (r.status == StatusInternalServerError <==> removed.Err? && removed.error != ErrNotFound) &&
      (r.status == StatusNoContent <==> removed.Ok?) &&
      (r.status == StatusNotFound ==> r.body == [ErrorMessage(MsgNotFound)]) &&
      (r.status == StatusInternalServerError ==> r.body == [ErrorMessage(MsgDatabaseError)]) &&
      (r.status == StatusNoContent ==> r.body == [] && r.header == map[])
  {
  }

  /** Listing answers 500 on any store error and 200 with exactly the books the store returned otherwise. */
  lemma AllBooksOutcomes(found: StoreResult<seq<Book>>)
    ensures AllBooks(found).issued == Some(FindAll)
    ensures var r := AllBooks(found).response;
      (r.status == StatusInternalServerError <==> found.Err?) &&
      (found.Err? ==> r.body == [ErrorMessage(MsgDatabaseErrorList)]) &&
      (found.Ok? ==> r.status == StatusOK && r.body == [BookList(found.value)])
  {
  }

  // ---------------------------------------------------------------------------
  // The handlers, acting on a response writer
  // ---------------------------------------------------------------------------

  /** ErrorWithJSON: sets the JSON content type, writes the status, then the error object. */
  method ErrorWithJson(w: ResponseWriter<Payload>, message: string, code: int)
    requires w.Pristine() && 200 <= code <= 999
    modifies w
    ensures w.Sent() == ErrorJson(message, code)
    ensures w.Sent().status == code && w.Sent().header == map[ContentType := JsonUtf8]
    ensures w.Sent().body == [ErrorMessage(message)]
  {
    w.SetHeader(ContentType, JsonUtf8);
    w.WriteHeader(code);
    w.Write(ErrorMessage(message));
  }

  /** ResponseWithJSON: sets the JSON content type, writes the status, then the payload unchanged. */
  method ResponseWithJson(w: ResponseWriter<Payload>, payload: Payload, code: int)
    requires w.Pristine() && 200 <= code <= 999
    modifies w
    ensures w.Sent() == BodyJson(payload, code)
    ensures w.Sent().status == code && w.Sent().header == map[ContentType := JsonUtf8]
    ensures w.Sent().body == [payload]
  {
    w.SetHeader(ContentType, JsonUtf8);
    w.WriteHeader(code);
    w.Write(payload);
  }

  method ServeAllBooks(w: ResponseWriter<Payload>, found: StoreResult<seq<Book>>) returns (issued: Option<StoreOp>)
    requires w.Pristine()
    modifies w
    ensures Reply(issued, w.Sent()) == AllBooks(found)
  {
    issued := Some(FindAll);
    if found.Err? {
      ErrorWithJson(w, MsgDatabaseErrorList, StatusInternalServerError);
      return;
    }
    ResponseWithJson(w, BookList(found.value), StatusOK);
  }

  method ServeAddBook(w: ResponseWriter<Payload>, path: string, decoded: Option<Book>, inserted: StoreResult<()>)
    returns (issued: Option<StoreOp>)
    requires w.Pristine()
    modifies w
    ensures Reply(issued, w.Sent()) == AddBook(path, decoded, inserted)
  {
    if decoded.None? {
      ErrorWithJson(w, MsgIncorrectBody, StatusBadRequest);
      return None;
    }
    var book := decoded.value;
    issued := Some(Insert(book));
    if inserted.Err? {
      if inserted.error == ErrDuplicateKey {
        ErrorWithJson(w, MsgDuplicate, StatusBadRequest);
        return;
      }
      ErrorWithJson(w, MsgDatabaseError, StatusInternalServerError);
      return;
    }
    w.SetHeader(ContentType, Json);
    w.SetHeader(Location, path + "/" + book.isbn);
    w.WriteHeader(StatusCreated);
  }

  method ServeBookByIsbn(w: ResponseWriter<Payload>, isbn: string, found: StoreResult<Book>)
    returns (issued: Option<StoreOp>)
    requires w.Pristine()
    modifies w
    ensures Reply(issued, w.Sent()) == BookByIsbn(isbn, found)
  {
    issued := Some(FindOne(Selector(SelectorKey, isbn)));
    if found.Err? {
      ErrorWithJson(w, MsgDatabaseError, StatusInternalServerError);
      return;
    }
    var book := found.value;
    if book.isbn == "" {
      ErrorWithJson(w, MsgNotFound, StatusNotFound);
      return;
    }
    ResponseWithJson(w, OneBook(book), StatusOK);
  }

  method ServeUpdateBook(w: ResponseWriter<Payload>, isbn: string, decoded: Option<Book>, updated: StoreResult<()>)
    returns (issued: Option<StoreOp>)
    requires w.Pristine()
    modifies w
    ensures Reply(issued, w.Sent()) == UpdateBook(isbn, decoded, updated)
  {
    if decoded.None? {
      ErrorWithJson(w, MsgIncorrectBodyUpdate, StatusBadRequest);
      return None;
    }
    issued := Some(Update(Selector(SelectorKey, isbn), decoded.value));
    if updated.Err? {
      if updated.error == ErrNotFound {
        ErrorWithJson(w, MsgNotFound, StatusNotFound);
      } else {
        ErrorWithJson(w, MsgDatabaseError, StatusInternalServerError);
      }
      return;
    }
    w.WriteHeader(StatusNoContent);
  }

  method ServeDeleteBook(w: ResponseWriter<Payload>, isbn: string, removed: StoreResult<()>)
    returns (issued: Option<StoreOp>)
    requires w.Pristine()
    modifies w
    ensures Reply(issued, w.Sent()) == DeleteBook(isbn, removed)
  {
    issued := Some(Remove(Selector(SelectorKey, isbn)));
    if removed.Err? {
      if removed.error == ErrNotFound {
        ErrorWithJson(w, MsgNotFound, StatusNotFound);
      } else {
        ErrorWithJson(w, MsgDatabaseError, StatusInternalServerError);
      }
      return;
    }
    w.WriteHeader(StatusNoContent);
  }
}
