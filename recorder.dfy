/** internal/recorder: the recording proxy and its persistence worker.
    The HTTP server, the goroutines and the unbuffered channel are replaced by a
    sequential reading: `ServeHTTP` appends each cloned response to `workerChan`
    (the hand-off channel, as the sequence of everything sent on it), and
    `ProcessResponses` takes the items in order until its `done` point. */
module Recorder {
  import opened Wrappers
  import opened Errors
  import opened Fs
  import opened Http
  import opened MockSpec
  import opened JsonSpec
  import MimeTypes
  import Url

  // ---------------------------------------------------------------- command and run

  datatype RecordCommand = RecordCommand(target: string, responsesPath: string)

  /** RecordCommand.Valid: only the target is required. */
  function Valid(c: RecordCommand): (err: Option<Error>)
    ensures err.Some? <==> c.target == ""
    ensures err.Some? ==> err.value == Message("target is required")
  {
    if c.target == "" then Some(Message("target is required")) else None
  }

  /** How the server stops: the context is cancelled (and the graceful shutdown
      returns `shutdownErr`), or ListenAndServe fails on its own. */
  datatype Stop = Cancelled(shutdownErr: Option<Error>) | ServerFailed(serverErr: Error)

  /** The observable course of Run: which steps were reached, the artifact
      directory it chose, whether the worker was told to stop, and the result. */
  datatype RunTrace = RunTrace(createdMocksDir: bool, startedServer: bool, targetDir: string,
                               workerStopped: bool, result: Option<Error>)

  /** Run, given the outcome of the mocks-directory creation (`mkdirErr`, from
      config.CreateMocksDirIfNotExist) and the way the server stops. */
  function Run(c: RecordCommand, mocksDir: string, mkdirErr: Option<Error>, stop: Stop): (t: RunTrace)
    ensures c.target == "" ==> t == RunTrace(false, false, "", false, Some(Message("target is required")))
    ensures c.target != "" ==> t.createdMocksDir
    ensures t.startedServer <==> c.target != "" && mkdirErr.None?
    ensures t.startedServer ==> t.targetDir == PathJoin(mocksDir, c.responsesPath)
    ensures c.target != "" && mkdirErr.Some? ==> t.result == mkdirErr && !t.workerStopped
    ensures t.startedServer ==>
      && (t.result.None? <==> stop == Cancelled(None))
      && (t.workerStopped <==> !(stop.Cancelled? && stop.shutdownErr.Some?))
      && (stop.Cancelled? && stop.shutdownErr.Some? ==>
            t.result == Some(Wrapped("failed to shut down recorder gracefully", stop.shutdownErr.value)))
      && (stop.ServerFailed? ==> t.result == Some(Wrapped("server error", stop.serverErr)))
  {
    if Valid(c).Some? then RunTrace(false, false, "", false, Valid(c))
    else if mkdirErr.Some? then RunTrace(true, false, "", false, mkdirErr)
    else
      var dir := PathJoin(mocksDir, c.responsesPath);
      match stop
      case Cancelled(None) => RunTrace(true, true, dir, true, None)
      case Cancelled(Some(e)) =>
        RunTrace(true, true, dir, false, Some(Wrapped("failed to shut down recorder gracefully", e)))
      case ServerFailed(e) => RunTrace(true, true, dir, true, Some(Wrapped("server error", e)))
  }

  // ---------------------------------------------------------------- proxying

  /** The request sent upstream: the inbound method, headers and body, to the URL
      made of the target and the inbound (already decoded) path. Building the
      request parses that URL again, so its path and query are what url.Parse
      finds there, and a URL it refuses means no request. The inbound query
      string is not carried over. */
  function OutboundRequest(targetUrl: string, r: Request): (o: Result<Request, Error>)
    ensures o.Ok? <==> Url.Parse(targetUrl, r.path).Ok?
    ensures o.Err? ==> o.error == Url.Parse(targetUrl, r.path).error
    ensures o.Ok? ==>
      && o.value.verb == r.verb && o.value.header == r.header && o.value.body == r.body
      && o.value.url == targetUrl + r.path
      && o.value.path == Url.Parse(targetUrl, r.path).value.path
      && o.value.query == Url.Parse(targetUrl, r.path).value.rawQuery
  {
    match Url.Parse(targetUrl, r.path)
    case Err(e) => Err(e)
    case Ok(u) => Ok(Request(r.verb, targetUrl + r.path, u.path, u.rawQuery, r.header, r.body))
  }

  /** Two inbound requests that differ only in their query are proxied identically. */
  lemma QueryDropped(targetUrl: string, r: Request, query: string)
    ensures OutboundRequest(targetUrl, r.(query := query)) == OutboundRequest(targetUrl, r)
  {
  }

  /** An ordinary inbound path (no '%', '?', '#' or control character) is sent,
      and so recorded, as it is, with no query. */
  lemma PlainPathProxied(targetUrl: string, r: Request)
    requires Url.CtlFree(targetUrl) && Url.CtlFree(r.path)
    requires '%' !in r.path && '?' !in r.path && '#' !in r.path
    ensures OutboundRequest(targetUrl, r) == Ok(Request(r.verb, targetUrl + r.path, r.path, "", r.header, r.body))
  {
    Url.PlainPathKept(targetUrl, r.path);
  }

  /** An inbound `/a%3Fb` arrives decoded as `/a?b`; the outbound request goes
      to path `/a` with query `b`, and its artifact is `_a.json`. */
  lemma DecodedQuestionMarkStartsQuery(targetUrl: string, r: Request)
    requires Url.CtlFree(targetUrl)
    ensures var o := OutboundRequest(targetUrl, r.(path := "/a?b"));
      o.Ok? && o.value.path == "/a" && o.value.query == "b" && MockFileNameFromPath(o.value.path) == "_a.json"
  {
    var p := "/a?b";
    assert Url.IndexOf(p, '#') == |p| && p[..|p|] == p;
    assert Url.IndexOf(p, '?') == 2 && p[..2] == "/a" && p[3..] == "b";
    Url.PlainPathKept(targetUrl, "/a");
    MockSpec.NameFromCharacters("/a", "_a.json");
  }

  /** An inbound `/a%23b` arrives decoded as `/a#b`; the outbound request goes
      to path `/a`, the rest being a fragment that is never sent. */
  lemma DecodedHashStartsFragment(targetUrl: string, r: Request)
    requires Url.CtlFree(targetUrl)
    ensures var o := OutboundRequest(targetUrl, r.(path := "/a#b"));
      o.Ok? && o.value.path == "/a" && o.value.query == ""
  {
    var p := "/a#b";
    assert Url.IndexOf(p, '#') == 2 && p[..2] == "/a" && p[3..] == "b";
    assert Url.IndexOf("/a", '?') == 2 && "/a"[..2] == "/a";
    Url.UnescapePlain("b");
    Url.UnescapePlain("/a");
    Url.CtlFreeConcat(targetUrl, "/a");
  }

  /** An inbound `/a%2541` arrives decoded as `/a%41`, which the parse decodes
      once more: the outbound request and its artifact name use `/aA`. */
  lemma DecodedPercentDecodedAgain(targetUrl: string, r: Request)
    requires Url.CtlFree(targetUrl)
    ensures var o := OutboundRequest(targetUrl, r.(path := "/a%41"));
      o.Ok? && o.value.path == "/aA" && o.value.query == ""
  {
    var p := "/a%41";
    assert Url.IndexOf(p, '#') == |p| && p[..|p|] == p;
    assert Url.IndexOf(p, '?') == |p|;
    var e := "%41";
    assert e[3..] == [] && Url.IsHex(e[1]) && Url.IsHex(e[2]);
    assert (Url.HexValue(e[1]) * 16 + Url.HexValue(e[2])) as char == 'A';
    assert Url.Unescape(e[3..]) == Some([]);
    assert Url.Unescape(e) == Some(['A'] + []);
    Url.UnescapeCons('a', e);
    Url.UnescapeCons('/', ['a'] + e);
    assert p == ['/'] + (['a'] + e);
    Url.CtlFreeConcat(targetUrl, p);
  }

  /** What the upstream round trip produced: a transport error, or a response
      whose body may fail while being read. http.Client follows redirects, so the
      response may answer a later request than the one sent: `redirectedTo` is
      the last request the client sent, None when it followed no redirect. */
  datatype Upstream =
    | TransportError(err: Error)
    | Reply(status: int, header: Header, body: Bytes, readFails: bool, redirectedTo: Option<Request>)

  /** The request a response reports (`res.Request`): the one sent, or the last
      one the client sent while following redirects. */
  function AnsweredRequest(sent: Request, up: Upstream): (a: Request)
    requires up.Reply?
    ensures up.redirectedTo.None? ==> a == sent
    ensures up.redirectedTo.Some? ==> a == up.redirectedTo.value
  {
    match up.redirectedTo
    case None => sent
    case Some(last) => last
  }

  /** cloneResponse: reads the body once, restores it on the original response as
      a fresh reader over the same bytes, and returns a copy of the response with a
      second, independent reader over those bytes. */
  method CloneResponse(res: Response) returns (r: Result<Response, Error>)
    modifies res, res.body
    ensures old(res.body).failing ==>
      r == Err(BodyRead) && res.body == old(res.body) && res.body.unread == old(res.body.unread)
    ensures !old(res.body).failing ==>
      && r.Ok? && fresh(r.value) && fresh(r.value.body) && fresh(res.body)
      && old(res.body).closed
      && res.body.unread == r.value.body.unread == old(res.body.unread)
      && !res.body.failing && !r.value.body.failing && !res.body.closed
      && r.value.body != res.body
      && r.value.status == res.status && r.value.header == res.header && r.value.request == res.request
  {
    var bodyBuf := res.body.ReadAll();
    if bodyBuf.Err? {
      return Err(bodyBuf.error);
    }
    res.body.Close();
    res.body := new Body(bodyBuf.value, false);
    var cloneBody := new Body(bodyBuf.value, false);
    var clone := new Response(res.status, res.header, res.request, cloneBody);
    return Ok(clone);
  }

  // ---------------------------------------------------------------- persisting one exchange

  /** The artifact file of a request path under the target directory. */
  function ArtifactName(targetDir: string, path: string): string
  {
    PathJoin(targetDir, MockFileNameFromPath(path))
  }

  function ContentType(ex: Exchange): string
  {
    HeaderGet(ex.header, "Content-Type")
  }

  /** The disk after writer resolution and the writer's descriptor: Ok(None) is
      the nil MockWriter returned, without an error, for every other content type. */
  datatype Resolved = Resolved(fs: FsState, writer: Result<Option<nat>, Error>)

  /** getMockWriterFromTargetResponse: only a Content-Type exactly equal to
      application/json gets a writer, on a created (truncated) artifact file. */
  function ResolveWriter(fs: FsState, targetDir: string, ex: Exchange): (r: Resolved)
    ensures ContentType(ex) != MimeTypes.ContentTypeJSON ==> r == Resolved(fs, Ok(None))
    ensures ContentType(ex) == MimeTypes.ContentTypeJSON ==>
      var o := Create(fs, ArtifactName(targetDir, ex.path));
      && r.fs == o.fs
      && (o.fd.Err? ==> r.writer == Err(o.fd.error))
      && (o.fd.Ok? ==> r.writer == Ok(Some(o.fd.value)))
  {
    if ContentType(ex) == MimeTypes.ContentTypeJSON then
      var o := Create(fs, ArtifactName(targetDir, ex.path));
      match o.fd
      case Err(e) => Resolved(o.fs, Err(e))
      case Ok(fd) => Resolved(o.fs, Ok(Some(fd)))
    else Resolved(fs, Ok(None))
  }

  /** What happened to one exchange in the worker. `Panicked` is the nil
      MockWriter being called, which ends the process. */
  datatype Outcome =
    | ResolveFailed(err: Error)
    | NoWriter
    | WriteFailed(err: Error)
    | Persisted(closeErr: Option<Error>)
    | Panicked

  datatype Handled = Handled(fs: FsState, outcome: Outcome)

  /** One iteration of the worker, with the nil writer skipped, as its effect on
      the disk: only an application/json exchange is recorded; its artifact file
      is created (or truncated) on the lowest free descriptor, the decoded body is
      encoded and written in one write, and the descriptor is closed only when
      that write succeeds. */
  function Step(fs: FsState, targetDir: string, ex: Exchange, codec: JsonCodec): Handled
  {
    if ContentType(ex) != MimeTypes.ContentTypeJSON then Handled(fs, NoWriter)
    else
      var q := Resolve(fs, ArtifactName(targetDir, ex.path));
      if q in fs.faults || q in fs.dirs then Handled(fs, ResolveFailed(IoFailure(q)))
      else if q !in fs.files && Dir(q) !in fs.dirs then Handled(fs, ResolveFailed(NotExist(q)))
      else
        var truncated := fs.(files := fs.files[q := []], open := fs.open[LowestFree(fs.open, 0) := q]);
        var decoded := codec.decodeObject(ex.body);
        if decoded.Err? then Handled(truncated, WriteFailed(decoded.error))
        else
          var bytes := codec.encode(ArtifactOf(ex, decoded.value));
          if fs.full && bytes != [] then Handled(truncated, WriteFailed(IoFailure(q)))
          else Handled(fs.(files := fs.files[q := bytes]), Persisted(None))
  }

  /** The same iteration composed from its stages, as handleResponse calls them:
      resolve the writer, write the response, close the writer. */
  function StepByStages(fs: FsState, targetDir: string, ex: Exchange, codec: JsonCodec): Handled
  {
    var q := Resolve(fs, ArtifactName(targetDir, ex.path));
    var r := ResolveWriter(fs, targetDir, ex);
    match r.writer
    case Err(e) => Handled(r.fs, ResolveFailed(e))
    case Ok(None) => Handled(r.fs, NoWriter)
    case Ok(Some(fd)) =>
      assert r.fs.open == fs.open[fd := q] && fd !in fs.open && r.fs.files == fs.files[q := []];
      assert r.fs.open.Keys == fs.open.Keys + {fd};
      assert q in r.fs.open.Values by { assert r.fs.open[fd] == q; }
      var we := WriteEffect(r.fs, fd, ex, codec);
      if we.err.Some? then Handled(we.fs, WriteFailed(we.err.value))
      else
        var c := Close(we.fs, fd);
        assert c.fs.open == fs.open;
        assert Content(r.fs, q) == [];
        var bytes := codec.encode(ArtifactOf(ex, codec.decodeObject(ex.body).value));
        assert we.fs.files == r.fs.files[q := [] + bytes];
        assert [] + bytes == bytes;
        assert we.fs.files == fs.files[q := bytes];
        Handled(c.fs, Persisted(c.err))
  }

  /** The flat effect and the staged composition agree on every input. */
  lemma StepStages(fs: FsState, targetDir: string, ex: Exchange, codec: JsonCodec)
    ensures Step(fs, targetDir, ex, codec) == StepByStages(fs, targetDir, ex, codec)
  {
    if ContentType(ex) == MimeTypes.ContentTypeJSON {
      if Creatable(fs, ArtifactName(targetDir, ex.path)) {
        StepStagesWriting(fs, targetDir, ex, codec);
      } else {
        assert Create(fs, ArtifactName(targetDir, ex.path)).fd.Err?;
      }
    }
  }

  /** StepStages once the artifact file is created. */
  lemma StepStagesWriting(fs: FsState, targetDir: string, ex: Exchange, codec: JsonCodec)
    requires ContentType(ex) == MimeTypes.ContentTypeJSON && Creatable(fs, ArtifactName(targetDir, ex.path))
    ensures Step(fs, targetDir, ex, codec) == StepByStages(fs, targetDir, ex, codec)
  {
    var decoded := codec.decodeObject(ex.body);
    if decoded.Ok? {
      StepStagesDecoded(fs, targetDir, ex, codec);
    }
  }

  /** StepStages once the artifact file is created and the body decodes. */
  lemma StepStagesDecoded(fs: FsState, targetDir: string, ex: Exchange, codec: JsonCodec)
    requires ContentType(ex) == MimeTypes.ContentTypeJSON && Creatable(fs, ArtifactName(targetDir, ex.path))
    requires codec.decodeObject(ex.body).Ok?
    ensures Step(fs, targetDir, ex, codec) == StepByStages(fs, targetDir, ex, codec)
  {
    var q := Resolve(fs, ArtifactName(targetDir, ex.path));
    var fd := LowestFree(fs.open, 0);
    var truncated := fs.(files := fs.files[q := []], open := fs.open[fd := q]);
    assert ResolveWriter(fs, targetDir, ex) == Resolved(truncated, Ok(Some(fd)));
    var bytes := codec.encode(ArtifactOf(ex, codec.decodeObject(ex.body).value));
    if !(fs.full && bytes != []) {
      StepStagesPersisted(fs, q, fd, truncated, bytes);
    }
  }

  /** The write and the close of a persisted step leave the file holding the
      artifact and the descriptors as they were. */
  lemma StepStagesPersisted(fs: FsState, q: string, fd: nat, truncated: FsState, bytes: Bytes)
    requires fd !in fs.open && truncated == fs.(files := fs.files[q := []], open := fs.open[fd := q])
    requires !(fs.full && bytes != [])
    ensures Write(truncated, fd, bytes) == Effect(truncated.(files := fs.files[q := bytes]), None)
    ensures Close(truncated.(files := fs.files[q := bytes]), fd) == Effect(fs.(files := fs.files[q := bytes]), None)
  {
    assert fs.open[fd := q] - {fd} == fs.open;
    assert [] + bytes == bytes;
  }

  /** What one iteration does to the disk: nothing unless the Content-Type is
      exactly application/json; the writer cannot be resolved exactly when the
      artifact file cannot be created; only the artifact file changes; an
      exchange is persisted exactly when it is JSON, its file can be created, its
      body decodes and the disk takes the encoded artifact, and then that file
      holds the encoded artifact and no descriptor is left open; a failed write
      leaves exactly one more descriptor open, on the artifact; and the
      iteration never panics. */
  lemma StepEffect(fs: FsState, targetDir: string, ex: Exchange, codec: JsonCodec)
    ensures var h := Step(fs, targetDir, ex, codec);
      var name := ArtifactName(targetDir, ex.path);
      var q := Resolve(fs, name);
      var decoded := codec.decodeObject(ex.body);
      && (ContentType(ex) != MimeTypes.ContentTypeJSON ==> h == Handled(fs, NoWriter))
      && (h.outcome.ResolveFailed? <==> ContentType(ex) == MimeTypes.ContentTypeJSON && !Creatable(fs, name))
      && h.fs.dirs == fs.dirs && h.fs.cwd == fs.cwd && h.fs.faults == fs.faults && h.fs.full == fs.full
      && (forall r :: r != q ==>
            (r in h.fs.files <==> r in fs.files) && (r in fs.files ==> h.fs.files[r] == fs.files[r]))
      && (h.outcome.Persisted? <==>
            && ContentType(ex) == MimeTypes.ContentTypeJSON && Creatable(fs, name) && decoded.Ok?
            && !(fs.full && codec.encode(ArtifactOf(ex, decoded.value)) != []))
      && (h.outcome.Persisted? ==>
            && h.fs.files == fs.files[q := codec.encode(ArtifactOf(ex, decoded.value))]
            && h.fs.open == fs.open && h.outcome.closeErr.None?)
      && (h.outcome.WriteFailed? ==> |h.fs.open| == |fs.open| + 1 && q in h.fs.open.Values)
      && (h.outcome.WriteFailed? && codec.decodeObject(ex.body).Err? ==> h.fs.files == fs.files[q := []])
      && (!h.outcome.WriteFailed? ==> h.fs.open == fs.open)
      && !h.outcome.Panicked?
  {
    StepFrame(fs, targetDir, ex, codec);
    StepOutcome(fs, targetDir, ex, codec);
    StepDescriptors(fs, targetDir, ex, codec);
  }

  lemma StepFrame(fs: FsState, targetDir: string, ex: Exchange, codec: JsonCodec)
    ensures var h := Step(fs, targetDir, ex, codec);
      var q := Resolve(fs, ArtifactName(targetDir, ex.path));
      && (ContentType(ex) != MimeTypes.ContentTypeJSON ==> h == Handled(fs, NoWriter))
      && h.fs.dirs == fs.dirs && h.fs.cwd == fs.cwd && h.fs.faults == fs.faults && h.fs.full == fs.full
      && (forall r :: r != q ==>
            (r in h.fs.files <==> r in fs.files) && (r in fs.files ==> h.fs.files[r] == fs.files[r]))
      && !h.outcome.Panicked?
  {
    StepFilesFrame(fs, targetDir, ex, codec);
    var h := Step(fs, targetDir, ex, codec);
    var q := Resolve(fs, ArtifactName(targetDir, ex.path));
    assert h.fs == fs.(files := h.fs.files) || h.fs == fs.(files := h.fs.files, open := fs.open[LowestFree(fs.open, 0) := q]);
  }

  /** A step changes at most the artifact file's entry. */
  lemma StepFilesFrame(fs: FsState, targetDir: string, ex: Exchange, codec: JsonCodec)
    ensures var h := Step(fs, targetDir, ex, codec);
      var q := Resolve(fs, ArtifactName(targetDir, ex.path));
      forall r :: r != q ==>
        (r in h.fs.files <==> r in fs.files) && (r in fs.files ==> h.fs.files[r] == fs.files[r])
  {
    var q := Resolve(fs, ArtifactName(targetDir, ex.path));
    var decoded := codec.decodeObject(ex.body);
    if ContentType(ex) == MimeTypes.ContentTypeJSON && Creatable(fs, ArtifactName(targetDir, ex.path)) && decoded.Ok? {
      var bytes := codec.encode(ArtifactOf(ex, decoded.value));
      var h := Step(fs, targetDir, ex, codec);
      assert h.fs.files == fs.files[q := []] || h.fs.files == fs.files[q := bytes];
    }
  }

  lemma StepOutcome(fs: FsState, targetDir: string, ex: Exchange, codec: JsonCodec)
    ensures var h := Step(fs, targetDir, ex, codec);
      var name := ArtifactName(targetDir, ex.path);
      var q := Resolve(fs, name);
      var decoded := codec.decodeObject(ex.body);
      && (h.outcome.ResolveFailed? <==> ContentType(ex) == MimeTypes.ContentTypeJSON && !Creatable(fs, name))
      && (h.outcome.Persisted? <==>
            && ContentType(ex) == MimeTypes.ContentTypeJSON && Creatable(fs, name) && decoded.Ok?
            && !(fs.full && codec.encode(ArtifactOf(ex, decoded.value)) != []))
      && (h.outcome.Persisted? ==>
            && h.fs.files == fs.files[q := codec.encode(ArtifactOf(ex, decoded.value))]
            && h.fs.open == fs.open && h.outcome.closeErr.None?)
  {
  }

  lemma StepDescriptors(fs: FsState, targetDir: string, ex: Exchange, codec: JsonCodec)
    ensures var h := Step(fs, targetDir, ex, codec);
      var q := Resolve(fs, ArtifactName(targetDir, ex.path));
      && (h.outcome.WriteFailed? ==> |h.fs.open| == |fs.open| + 1 && q in h.fs.open.Values)
      && (h.outcome.WriteFailed? && codec.decodeObject(ex.body).Err? ==> h.fs.files == fs.files[q := []])
      && (!h.outcome.WriteFailed? ==> h.fs.open == fs.open)
  {
    var q := Resolve(fs, ArtifactName(targetDir, ex.path));
    if ContentType(ex) == MimeTypes.ContentTypeJSON && Creatable(fs, ArtifactName(targetDir, ex.path)) {
      OneMoreOpen(fs.open, LowestFree(fs.open, 0), q);
    }
  }

  lemma OneMoreOpen(open: map<nat, string>, fd: nat, q: string)
    requires fd !in open
    ensures |open[fd := q]| == |open| + 1 && q in open[fd := q].Values
  {
    assert open[fd := q].Keys == open.Keys + {fd};
    assert open[fd := q][fd] == q;
  }

  /** The worker iteration as written: for any content type other than
      application/json the resolver returns a nil writer and no error, the only
      guard checks the error, and calling WriteResponse on the nil writer panics. */
  function StepAsWritten(fs: FsState, targetDir: string, ex: Exchange, codec: JsonCodec): (h: Handled)
    ensures ContentType(ex) != MimeTypes.ContentTypeJSON ==> h == Handled(fs, Panicked)
    ensures ContentType(ex) == MimeTypes.ContentTypeJSON ==> h == Step(fs, targetDir, ex, codec)
  {
    if ResolveWriter(fs, targetDir, ex).writer == Ok(None) then Handled(fs, Panicked)
    else Step(fs, targetDir, ex, codec)
  }

  // ---------------------------------------------------------------- the worker over a sequence

  datatype Processed = Processed(fs: FsState, outcomes: seq<Outcome>)

  /** The worker over the exchanges it receives, in order. */
  function Persist(fs: FsState, targetDir: string, exs: seq<Exchange>, codec: JsonCodec): (p: Processed)
    ensures |p.outcomes| == |exs|
    decreases |exs|
  {
    if exs == [] then Processed(fs, [])
    else
      var before := Persist(fs, targetDir, exs[..|exs| - 1], codec);
      var h := Step(before.fs, targetDir, exs[|exs| - 1], codec);
      Processed(h.fs, before.outcomes + [h.outcome])
  }

  /** A run of steps, each from the state the previous one left, is the worker
      over those exchanges. */
  lemma {:induction false} ChainIsPersist(fs: FsState, targetDir: string, exs: seq<Exchange>,
                                         states: seq<FsState>, outcomes: seq<Outcome>, codec: JsonCodec)
    requires |states| == |exs| + 1 && |outcomes| == |exs| && states[0] == fs
    requires forall k {:trigger Step(states[k], targetDir, exs[k], codec)} :: 0 <= k < |exs| ==>
      Handled(states[k + 1], outcomes[k]) == Step(states[k], targetDir, exs[k], codec)
    ensures Persist(fs, targetDir, exs, codec) == Processed(states[|exs|], outcomes)
  {
    if exs != [] {
      var m := |exs| - 1;
      ChainIsPersist(fs, targetDir, exs[..m], states[..m + 1], outcomes[..m], codec);
    }
  }

  /** The worker as written: a panic ends it, and with it every later exchange.
      Only the last outcome can be a panic, and exchanges go unhandled only
      after one. */
  function PersistAsWritten(fs: FsState, targetDir: string, exs: seq<Exchange>, codec: JsonCodec): (p: Processed)
    ensures |p.outcomes| <= |exs|
    ensures forall k :: 0 <= k < |p.outcomes| - 1 ==> !p.outcomes[k].Panicked?
    ensures |p.outcomes| < |exs| ==> p.outcomes != [] && p.outcomes[|p.outcomes| - 1].Panicked?
    decreases |exs|
  {
    if exs == [] then Processed(fs, [])
    else
      var h := StepAsWritten(fs, targetDir, exs[0], codec);
      if h.outcome.Panicked? then Processed(h.fs, [Panicked])
      else
        var rest := PersistAsWritten(h.fs, targetDir, exs[1..], codec);
        Processed(rest.fs, [h.outcome] + rest.outcomes)
  }

  /** The worker unrolled from the front: the first exchange is handled, then
      the rest from the disk it left. */
  lemma {:induction false} PersistFront(fs: FsState, targetDir: string, exs: seq<Exchange>, codec: JsonCodec)
    requires exs != []
    ensures var h := Step(fs, targetDir, exs[0], codec);
      var rest := Persist(h.fs, targetDir, exs[1..], codec);
      Persist(fs, targetDir, exs, codec) == Processed(rest.fs, [h.outcome] + rest.outcomes)
    decreases |exs|
  {
    var h := Step(fs, targetDir, exs[0], codec);
    var n := |exs|;
    if n == 1 {
      assert exs[..0] == [] && exs[1..] == [];
    } else {
      var init := exs[..n - 1];
      PersistFront(fs, targetDir, init, codec);
      assert init[0] == exs[0];
      assert init[1..] == exs[1..][..n - 2];
      assert exs[1..][n - 2] == exs[n - 1];
      var mid := Persist(h.fs, targetDir, init[1..], codec);
      var last := Step(mid.fs, targetDir, exs[n - 1], codec);
      assert ([h.outcome] + mid.outcomes) + [last.outcome] == [h.outcome] + (mid.outcomes + [last.outcome]);
    }
  }

  /** When every exchange is application/json the worker as written never
      panics and does exactly what the corrected worker does. */
  lemma {:induction false} AllJsonAsWritten(fs: FsState, targetDir: string, exs: seq<Exchange>, codec: JsonCodec)
    requires forall k :: 0 <= k < |exs| ==> ContentType(exs[k]) == MimeTypes.ContentTypeJSON
    ensures PersistAsWritten(fs, targetDir, exs, codec) == Persist(fs, targetDir, exs, codec)
    decreases |exs|
  {
    if exs != [] {
      var h := Step(fs, targetDir, exs[0], codec);
      StepEffect(fs, targetDir, exs[0], codec);
      AllJsonAsWritten(h.fs, targetDir, exs[1..], codec);
      PersistFront(fs, targetDir, exs, codec);
    }
  }

  function CountWriteFailed(os: seq<Outcome>): nat
  {
    if os == [] then 0 else CountWriteFailed(os[..|os| - 1]) + (if os[|os| - 1].WriteFailed? then 1 else 0)
  }

  /** Close is skipped after a failed write, so every failed write leaves one
      descriptor open, and nothing else does. */
  lemma {:induction false} LeakedDescriptors(fs: FsState, targetDir: string, exs: seq<Exchange>, codec: JsonCodec)
    ensures var p := Persist(fs, targetDir, exs, codec);
      |p.fs.open| == |fs.open| + CountWriteFailed(p.outcomes)
  {
    if exs != [] {
      var before := Persist(fs, targetDir, exs[..|exs| - 1], codec);
      LeakedDescriptors(fs, targetDir, exs[..|exs| - 1], codec);
      StepDescriptors(before.fs, targetDir, exs[|exs| - 1], codec);
      var p := Persist(fs, targetDir, exs, codec);
      assert p.outcomes[..|p.outcomes| - 1] == before.outcomes;
    }
  }

  /** The worker writes nothing but artifact files: every other file keeps its
      content, and no directory is created. */
  lemma {:induction false} OnlyArtifactsWritten(fs: FsState, targetDir: string, exs: seq<Exchange>,
                                                codec: JsonCodec, q: string)
    requires forall i :: 0 <= i < |exs| ==> q != Resolve(fs, ArtifactName(targetDir, exs[i].path))
    ensures var p := Persist(fs, targetDir, exs, codec);
      && p.fs.dirs == fs.dirs && p.fs.cwd == fs.cwd
      && (q in p.fs.files <==> q in fs.files) && (q in fs.files ==> p.fs.files[q] == fs.files[q])
  {
    if exs != [] {
      var before := Persist(fs, targetDir, exs[..|exs| - 1], codec);
      OnlyArtifactsWritten(fs, targetDir, exs[..|exs| - 1], codec, q);
      StepEffect(before.fs, targetDir, exs[|exs| - 1], codec);
    }
  }

  /** The worker over two exchanges is the step for the first followed by the
      step for the second. */
  lemma PersistPair(fs: FsState, targetDir: string, a: Exchange, b: Exchange, codec: JsonCodec)
    ensures var h1 := Step(fs, targetDir, a, codec);
      var h2 := Step(h1.fs, targetDir, b, codec);
      Persist(fs, targetDir, [a, b], codec) == Processed(h2.fs, [h1.outcome, h2.outcome])
  {
    var h1 := Step(fs, targetDir, a, codec);
    assert Persist(fs, targetDir, [a], codec) == Processed(h1.fs, [h1.outcome]) by {
      assert [a][..0] == [];
    }
    assert [a, b][..1] == [a];
  }

  /** Recording the same path twice targets the same file, and the second
      recording replaces the first rather than adding a file. */
  lemma RecordingTwiceOverwrites(fs: FsState, targetDir: string, first: Exchange, second: Exchange,
                                 codec: JsonCodec)
    requires first.path == second.path
    requires ContentType(first) == MimeTypes.ContentTypeJSON && ContentType(second) == MimeTypes.ContentTypeJSON
    requires Creatable(fs, ArtifactName(targetDir, first.path)) && !fs.full
    requires codec.decodeObject(first.body).Ok? && codec.decodeObject(second.body).Ok?
    ensures var p := Persist(fs, targetDir, [first, second], codec);
      var name := Resolve(fs, ArtifactName(targetDir, first.path));
      && p.fs.files == fs.files[name := codec.encode(ArtifactOf(second, codec.decodeObject(second.body).value))]
      && p.fs.files.Keys == fs.files.Keys + {name}
  {
    var h1 := Step(fs, targetDir, first, codec);
    var h2 := Step(h1.fs, targetDir, second, codec);
    PersistPair(fs, targetDir, first, second, codec);
    StepEffect(fs, targetDir, first, codec);
    var name := Resolve(fs, ArtifactName(targetDir, first.path));
    assert Stat(h1.fs, ArtifactName(targetDir, second.path)) == IsFile;
    StepEffect(h1.fs, targetDir, second, codec);
    assert Resolve(h1.fs, ArtifactName(targetDir, second.path)) == name;
    var enc2 := codec.encode(ArtifactOf(second, codec.decodeObject(second.body).value));
    var enc1 := codec.encode(ArtifactOf(first, codec.decodeObject(first.body).value));
    assert h1.fs.files == fs.files[name := enc1];
    assert h2.fs.files == h1.fs.files[name := enc2];
    assert Persist(fs, targetDir, [first, second], codec).fs.files == h2.fs.files;
    UpdateTwice(fs.files, name, enc1, enc2);
  }

  lemma UpdateTwice(m: map<string, Bytes>, k: string, a: Bytes, b: Bytes)
    ensures m[k := a][k := b] == m[k := b] && m[k := b].Keys == m.Keys + {k}
  {
  }

  /** A Content-Type carrying parameters is not recognised: the match is exact. */
  lemma CharsetParameterNotRecorded(fs: FsState, targetDir: string, ex: Exchange, codec: JsonCodec)
    requires ContentType(ex) == "application/json; charset=utf-8"
    ensures Step(fs, targetDir, ex, codec) == Handled(fs, NoWriter)
  {
  }

  /** As written, one exchange with an unsupported content type ends the worker:
      a JSON exchange received after it is never persisted, while the corrected
      worker skips the first and persists the second. */
  lemma NilWriterEndsWorker(fs: FsState, targetDir: string, plain: Exchange, json: Exchange, codec: JsonCodec)
    requires ContentType(plain) == MimeTypes.ContentTypePlain
    requires ContentType(json) == MimeTypes.ContentTypeJSON && Creatable(fs, ArtifactName(targetDir, json.path))
    requires codec.decodeObject(json.body).Ok? && !fs.full
    ensures PersistAsWritten(fs, targetDir, [plain, json], codec) == Processed(fs, [Panicked])
    ensures Persist(fs, targetDir, [plain, json], codec).outcomes == [NoWriter, Persisted(None)]
  {
    PersistPair(fs, targetDir, plain, json, codec);
    StepEffect(fs, targetDir, json, codec);
  }

  // ---------------------------------------------------------------- the recorder

  /** The captures of a sequence of responses, in order. */
  function Captures(items: seq<Response>): (exs: seq<Exchange>)
    reads items, set i | 0 <= i < |items| :: items[i].body
    ensures |exs| == |items|
    ensures forall i :: 0 <= i < |items| ==> exs[i] == Capture(items[i])
  {
    if items == [] then [] else Captures(items[..|items| - 1]) + [Capture(items[|items| - 1])]
  }

  class Recorder {
    const targetUrl: string
    const targetDir: string
    var workerChan: seq<Response>

    /** Every response handed off has its own body, which reads without error. */
    ghost predicate Valid()
      reads this, workerChan, set i | 0 <= i < |workerChan| :: workerChan[i].body
    {
      && (forall i, j :: 0 <= i < j < |workerChan| ==> workerChan[i].body != workerChan[j].body)
      && (forall i :: 0 <= i < |workerChan| ==> !workerChan[i].body.failing)
    }

    constructor (targetUrl: string, targetDir: string)
      ensures this.targetUrl == targetUrl && this.targetDir == targetDir
      ensures workerChan == [] && Valid()
    {
      this.targetUrl := targetUrl;
      this.targetDir := targetDir;
      workerChan := [];
    }

    /** ServeHTTP: forwards the request, clones the response, hands the clone to
        the worker, then copies the whole body to the caller. A transport error or
        an unreadable body ends the exchange with no hand-off and nothing copied. */
    method ServeHTTP(w: ResponseWriter, r: Request, upstream: Upstream)
      requires Valid()
      modifies this, w
      ensures Valid()
      ensures OutboundRequest(targetUrl, r).Err? || upstream.TransportError? || upstream.readFails ==>
        workerChan == old(workerChan) && w.written == old(w.written)
      ensures OutboundRequest(targetUrl, r).Ok? && upstream.Reply? && !upstream.readFails ==>
        && |workerChan| == |old(workerChan)| + 1
        && workerChan[..|old(workerChan)|] == old(workerChan)
        && var clone := workerChan[|old(workerChan)|];
        && var answered := AnsweredRequest(OutboundRequest(targetUrl, r).value, upstream);
        && fresh(clone) && fresh(clone.body)
        && clone.status == upstream.status && clone.header == upstream.header
        && clone.request == answered
        && Capture(clone) == Exchange(answered.verb, answered.path, upstream.header, upstream.body)
        && w.written == old(w.written) + upstream.body
    {
      var proxyr := OutboundRequest(targetUrl, r);
      if proxyr.Err? {
        return;
      }
      if upstream.TransportError? {
        return;
      }
      var upstreamBody := new Body(upstream.body, upstream.readFails);
      var res := new Response(upstream.status, upstream.header, AnsweredRequest(proxyr.value, upstream), upstreamBody);
      var clonedRes := CloneResponse(res);
      if clonedRes.Err? {
        return;
      }
      workerChan := workerChan + [clonedRes.value];
      var copied := res.body.ReadAll();
      w.Write(copied.value);
      res.body.Close();
    }

    /** getMockWriterFromTargetResponse, with the nil writer as None. */
    method GetMockWriterFromTargetResponse(res: Response, fs: FsState)
      returns (fs': FsState, mw: Option<Spec>, err: Option<Error>)
      ensures var r := ResolveWriter(fs, targetDir, Capture(res));
        && fs' == r.fs
        && (err.Some? <==> r.writer.Err?) && (err.Some? ==> err.value == r.writer.error)
        && (mw.Some? <==> r.writer.Ok? && r.writer.value.Some?)
        && (mw.Some? ==> fresh(mw.value) && mw.value.w == r.writer.value.value
                         && mw.value.Record() == Artifact(SpecRequest(map[], "", ""), SpecBodyResponse(map[], None)))
    {
      var contentType := HeaderGet(res.header, "Content-Type");
      var name := ArtifactName(targetDir, res.request.path);
      if contentType == MimeTypes.ContentTypeJSON {
        var file := Create(fs, name);
        if file.fd.Err? {
          return file.fs, None, Some(file.fd.error);
        }
        var spec := new Spec.New(file.fd.value);
        return file.fs, Some(spec), None;
      }
      return fs, None, None;
    }

    /** One iteration of processResponses, with the nil writer skipped: a failed
        resolution or a failed write moves on, and the writer is closed only after
        a successful write. */
    method HandleResponse(res: Response, fs: FsState, codec: JsonCodec) returns (fs': FsState, outcome: Outcome)
      requires !res.body.failing
      modifies res.body
      ensures Handled(fs', outcome) == Step(fs, targetDir, old(Capture(res)), codec)
    {
      StepStages(fs, targetDir, Capture(res), codec);
      var fs1, mw, err := GetMockWriterFromTargetResponse(res, fs);
      if err.Some? {
        return fs1, ResolveFailed(err.value);
      }
      if mw.None? {
        return fs1, NoWriter;
      }
      var spec := mw.value;
      var fs2, writeErr := spec.WriteResponse(res, fs1, codec);
      if writeErr.Some? {
        return fs2, WriteFailed(writeErr.value);
      }
      var fs3, closeErr := spec.Close(fs2);
      return fs3, Persisted(closeErr);
    }

    /** processResponses: the first `done` responses handed off are handled in
        order, each from the disk the previous one left (`states`); those after
        the done point are never received. */
    method ProcessResponses(done: nat, fs: FsState, codec: JsonCodec)
      returns (fs': FsState, outcomes: seq<Outcome>, ghost states: seq<FsState>)
      requires Valid()
      modifies set i | 0 <= i < |workerChan| :: workerChan[i].body
      ensures var n := if done < |workerChan| then done else |workerChan|;
        && |outcomes| == n && |states| == n + 1 && states[0] == fs && states[n] == fs'
        && forall k {:trigger Step(states[k], targetDir, old(Capture(workerChan[k])), codec)} :: 0 <= k < n ==>
             Handled(states[k + 1], outcomes[k]) == Step(states[k], targetDir, old(Capture(workerChan[k])), codec)
      ensures var n := if done < |workerChan| then done else |workerChan|;
        forall j :: n <= j < |workerChan| ==>
          workerChan[j].body.unread == old(workerChan[j].body.unread) && workerChan[j].body.closed == old(workerChan[j].body.closed)
    {
      var n := if done < |workerChan| then done else |workerChan|;
      ghost var caps := Captures(workerChan);
      states := [fs];
      fs', outcomes := fs, [];
      for i := 0 to n
        invariant |states| == i + 1 && |outcomes| == i && states[0] == fs && states[i] == fs'
        invariant forall k {:trigger Step(states[k], targetDir, caps[k], codec)} :: 0 <= k < i ==>
          Handled(states[k + 1], outcomes[k]) == Step(states[k], targetDir, caps[k], codec)
        invariant forall j :: i <= j < |workerChan| ==>
          && caps[j] == Exchange(workerChan[j].request.verb, workerChan[j].request.path, workerChan[j].header, workerChan[j].body.unread)
          && workerChan[j].body.unread == old(workerChan[j].body.unread) && workerChan[j].body.closed == old(workerChan[j].body.closed)
        invariant forall a, b :: 0 <= a < b < |workerChan| ==> workerChan[a].body != workerChan[b].body
      {
        var res := workerChan[i];
        var outcome;
        fs', outcome := HandleResponse(res, fs', codec);
        outcomes := outcomes + [outcome];
        states := states + [fs'];
      }
    }
  }
}
