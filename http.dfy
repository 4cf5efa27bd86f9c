/** The part of net/http the recorder touches: header maps, requests, single-read
    response bodies, responses and the caller-facing writer. */
module Http {
  import opened Wrappers
  import opened Errors
  import opened Fs

  /** http.Header; keys are taken to be in canonical form already. */
  type Header = map<string, seq<string>>

  /** http.Header.Get: the first value stored under the key, or "". */
  function HeaderGet(h: Header, key: string): (v: string)
    ensures v != "" ==> key in h && |h[key]| > 0 && v == h[key][0]
    ensures key in h && |h[key]| > 0 ==> v == h[key][0]
  {
    if key in h && |h[key]| > 0 then h[key][0] else ""
  }

  /** An http.Request: its method (verb), the URL it was built from, the URL's path and
      raw query, its headers and its body. */
  datatype Request = Request(verb: string, url: string, path: string, query: string,
                             header: Header, body: Bytes)

  /** An io.ReadCloser over a response body: `unread` is what a reader still gets;
      a `failing` body reports an error instead (a broken upstream connection). */
  class Body {
    var unread: Bytes
    const failing: bool
    var closed: bool

    /** A fresh body over `content` (io.NopCloser over a bytes.Buffer when `failing` is false). */
    constructor (content: Bytes, failing: bool)
      ensures unread == content && this.failing == failing && !closed
    {
      unread := content;
      this.failing := failing;
      closed := false;
    }

    /** io.ReadAll: everything that is left, after which nothing is. */
    method ReadAll() returns (r: Result<Bytes, Error>)
      modifies this
      ensures failing ==> r == Err(BodyRead) && unread == old(unread)
      ensures !failing ==> r == Ok(old(unread)) && unread == []
      ensures closed == old(closed)
    {
      if failing {
        r := Err(BodyRead);
      } else {
        r := Ok(unread);
        unread := [];
      }
    }

    method Close()
      modifies this
      ensures closed && unread == old(unread)
    {
      closed := true;
    }
  }

  /** An http.Response: status, headers and the request it answers are fixed;
      the body can be replaced, as the recorder does. */
  class Response {
    const status: int
    const header: Header
    const request: Request
    var body: Body

    constructor (status: int, header: Header, request: Request, body: Body)
      ensures this.status == status && this.header == header && this.request == request
      ensures this.body == body
    {
      this.status := status;
      this.header := header;
      this.request := request;
      this.body := body;
    }
  }

  /** What the recording pipeline keeps of a response: the request's method and
      path, the response headers and the body bytes still to be read. */
  datatype Exchange = Exchange(verb: string, path: string, header: Header, body: Bytes)

  function Capture(res: Response): (ex: Exchange)
    reads res, res.body
  {
    Exchange(res.request.verb, res.request.path, res.header, res.body.unread)
  }

  /** The http.ResponseWriter of the inbound request: the bytes sent to the caller. */
  class ResponseWriter {
    var written: Bytes

    constructor ()
      ensures written == []
    {
      written := [];
    }

    method Write(data: Bytes)
      modifies this
      ensures written == old(written) + data
    {
      written := written + data;
    }
  }
}
