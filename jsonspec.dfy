/** internal/mockspec/json: the JSON MockWriter. It holds the descriptor of the
    artifact file and the artifact record it fills in. The MockWriter interface
    has this one implementation, so the model gives it directly. */
module JsonSpec {
  import opened Wrappers
  import opened Errors
  import opened Fs
  import opened Http
  import opened MockSpec

  /** The artifact for an exchange whose body decoded to `obj`. Both header
      fields are filled from the response headers: the request's own headers
      never reach the artifact. */
  function ArtifactOf(ex: Exchange, obj: JsonObject): (a: Artifact)
    ensures a.request.headers == a.response.headers == ex.header
    ensures a.request.verb == ex.verb && a.request.requestPath == ex.path
    ensures a.response.body == Some(obj)
  {
    Artifact(SpecRequest(ex.header, ex.verb, ex.path), SpecBodyResponse(ex.header, Some(obj)))
  }

  /** What WriteResponse does to the disk once the body has been read: decode it,
      then write the encoded artifact through descriptor `w` in one write. */
  function WriteEffect(fs: FsState, w: nat, ex: Exchange, codec: JsonCodec): (e: Effect)
    ensures codec.decodeObject(ex.body).Err? ==> e == Effect(fs, Some(codec.decodeObject(ex.body).error))
    ensures codec.decodeObject(ex.body).Ok? ==>
      var bytes := codec.encode(ArtifactOf(ex, codec.decodeObject(ex.body).value));
      && (e.err.None? <==> w in fs.open && !(fs.full && bytes != []))
      && (e.err.None? ==> e.fs.files == fs.files[fs.open[w] := Content(fs, fs.open[w]) + bytes])
    ensures e.fs.open == fs.open && e.fs.dirs == fs.dirs
  {
    match codec.decodeObject(ex.body)
    case Err(d) => Effect(fs, Some(d))
    case Ok(obj) => Write(fs, w, codec.encode(ArtifactOf(ex, obj)))
  }

  class Spec {
    const w: nat
    var request: SpecRequest
    var response: SpecBodyResponse

    /** New: a writer over descriptor `w` with an empty record. */
    constructor New(w: nat)
      ensures this.w == w
      ensures request == SpecRequest(map[], "", "") && response == SpecBodyResponse(map[], None)
    {
      this.w := w;
      request := SpecRequest(map[], "", "");
      response := SpecBodyResponse(map[], None);
    }

    /** The record as it would be encoded now. */
    function Record(): Artifact
      reads this
    {
      Artifact(request, response)
    }

    /** WriteResponse: fills the request fields and the response headers from the
        response, reads the body, decodes it as a JSON object and writes the encoded
        record. A read error or a decode error returns before the body field is set
        and before anything is written; the descriptor is never closed here. */
    method WriteResponse(res: Response, fs: FsState, codec: JsonCodec) returns (fs': FsState, err: Option<Error>)
      modifies this, res.body
      ensures request == SpecRequest(res.header, res.request.verb, res.request.path)
      ensures response.headers == res.header
      ensures res.body.failing ==> err == Some(BodyRead) && fs' == fs && response.body == old(response.body)
      ensures !res.body.failing ==> Effect(fs', err) == WriteEffect(fs, w, old(Capture(res)), codec)
      ensures !res.body.failing ==> res.body.closed && res.body.unread == []
      ensures !res.body.failing && codec.decodeObject(old(res.body.unread)).Ok? ==>
        Record() == ArtifactOf(old(Capture(res)), codec.decodeObject(old(res.body.unread)).value)
      ensures !res.body.failing && codec.decodeObject(old(res.body.unread)).Err? ==>
        response.body == old(response.body)
    {
      ghost var ex := Capture(res);
      request := request.(headers := res.header);
      request := request.(requestPath := res.request.path);
      request := request.(verb := res.request.verb);
      response := response.(headers := res.header);

      var b := res.body.ReadAll();
      if b.Err? {
        return fs, Some(b.error);
      }
      res.body.Close();
      var decoded := codec.decodeObject(b.value);
      if decoded.Err? {
        return fs, Some(decoded.error);
      }
      response := response.(body := Some(decoded.value));
      var e := Write(fs, w, codec.encode(Artifact(request, response)));
      fs', err := e.fs, e.err;
    }

    /** Close: releases the descriptor, and is the only operation that does. */
    method Close(fs: FsState) returns (fs': FsState, err: Option<Error>)
      ensures fs' == fs.(open := fs.open - {w})
      ensures err.None? <==> w in fs.open
      ensures err.Some? ==> err == Some(Closed)
    {
      var e := Fs.Close(fs, w);
      fs', err := e.fs, e.err;
    }
  }
}
