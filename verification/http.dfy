/**
 * The part of an HTTP response writer that the handlers use: a header map that
 * may be changed until the status line is written, `WriteHeader`, and `Write`.
 * The body is a sequence of abstract chunks (the handlers write JSON, whose
 * text is not modelled).
 */
module Http {

  const StatusOK := 200
  const StatusCreated := 201
  const StatusNoContent := 204
  const StatusBadRequest := 400
  const StatusNotFound := 404
  const StatusInternalServerError := 500

  const ContentType := "Content-Type"
  const Location := "Location"

  type Header = map<string, string>

  /** What the client receives: the status code, the header sent with it, and the body chunks. */
  datatype Response<P> = Response(status: int, header: Header, body: seq<P>)

  class ResponseWriter<P> {
    /** The header map handed out by `Header()`; changes after the status line is written are not sent. */
    var header: Header
    var wroteHeader: bool
    /** The status code and header as written on the wire, once `wroteHeader` holds. */
    var status: int
    var sentHeader: Header
    var body: seq<P>

    /** Nothing has been set or written yet: the state a handler receives. */
    ghost predicate Pristine()
      reads this
    {
      header == map[] && !wroteHeader && body == []
    }

    constructor ()
      ensures Pristine()
    {
      header := map[];
      wroteHeader := false;
      status := StatusOK;
      sentHeader := map[];
      body := [];
    }

    /**
     * The response the client sees once the handler returns: a handler that
     * never wrote the status line gets 200 with the header as it stands.
     */
    function Sent(): Response<P>
      reads this
    {
      if wroteHeader then Response(status, sentHeader, body) else Response(StatusOK, header, body)
    }

    /** `Header().Set(key, value)`: replaces any earlier value of `key`. */
    method SetHeader(key: string, value: string)
      modifies this`header
      ensures header == old(header)[key := value]
    {
      header := header[key := value];
    }

    /**
     * `WriteHeader(code)` for a final status: only the first call has an
     * effect, and it freezes the header. Informational 1xx codes, which do not
     * freeze the header, are outside this model.
     */
    method WriteHeader(code: int)
      requires 200 <= code <= 999
      modifies this`wroteHeader, this`status, this`sentHeader
      ensures wroteHeader
      ensures old(wroteHeader) ==> status == old(status) && sentHeader == old(sentHeader)
      ensures !old(wroteHeader) ==> status == code && sentHeader == header
    {
      if !wroteHeader {
        wroteHeader := true;
        status := code;
        sentHeader := header;
      }
    }

    /** `Write(chunk)`: writes the status line as 200 first if nothing wrote it yet. */
    method Write(chunk: P)
      modifies this`wroteHeader, this`status, this`sentHeader, this`body
      ensures wroteHeader && body == old(body) + [chunk]
      ensures old(wroteHeader) ==> status == old(status) && sentHeader == old(sentHeader)
      ensures !old(wroteHeader) ==> status == StatusOK && sentHeader == header
    {
      WriteHeader(StatusOK);
      body := body + [chunk];
    }
  }
}
