/** The parts of Go's `net/http` request that the transformer reads and writes:
    the body stream, `ContentLength`, the header map and the decoded query. */
module Http {

  /** What reading the whole body stream (`io.ReadAll`) yields: its text, or
      the error that stopped the read. */
  datatype BodyStream = Readable(content: string) | Broken(error: string)

  /** `http.Header`: canonical key to its list of values. */
  type Header = map<string, seq<string>>

  /** `url.Values`, the already-decoded query: key to its list of values. */
  type Values = map<string, seq<string>>

  /** `url.Values.Get`: the first value of `key`, or "" when there is none. */
  function QueryGet(q: Values, key: string): string
  {
    if key in q && |q[key]| > 0 then q[key][0] else ""
  }

  /** `http.Header.Set`: `key` now holds exactly `value`. */
  function HeaderSet(h: Header, key: string, value: string): Header
  {
    h[key := [value]]
  }

  /** True when `key` is absent from both maps or holds the same values in both. */
  predicate SameEntry(h: Header, h': Header, key: string)
  {
    (key !in h && key !in h') || (key in h && key in h' && h[key] == h'[key])
  }

  /** A snapshot of the request fields the transformer touches. */
  datatype RequestData = RequestData(
    body: BodyStream,
    contentLength: int,
    header: Header,
    query: Values)

  /** `*http.Request`: the object that the middleware rewrites in place and
      then hands on to the next handler. */
  class Request {
    var body: BodyStream
    var contentLength: int
    var header: Header
    var query: Values

    constructor (body: BodyStream, contentLength: int, header: Header, query: Values)
      ensures Data() == RequestData(body, contentLength, header, query)
    {
      this.body := body;
      this.contentLength := contentLength;
      this.header := header;
      this.query := query;
    }

    /** The request's current field values. */
    function Data(): RequestData
      reads this
    {
      RequestData(body, contentLength, header, query)
    }
  }

}
