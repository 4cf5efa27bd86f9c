# pmok core in Dafny

A Dafny model of the core of `pmok`, the protomok command-line tool. It covers:

- **Recording.** The proxy forwards a request to a target server, clones the
  response, and hands the clone to a background worker. For an
  `application/json` response, the worker stores the exchange as a JSON mock
  file named after the request path (`internal/recorder`, `internal/mockspec`,
  `internal/mockspec/json`, `internal/mockspec/mimetypes`).
- **Route patterns.** A pattern such as `/users/:id` converts to a function
  file name such as `users.$id.ts`, and back (`internal/utils/path.go`).
- **The project manifest.**
  - Finding the project directory by walking up from the working directory.
  - Creating a new project on disk.
  - Detecting the manifest's format, loading it once per process, and
    committing it back (`internal/config/manifest.go`, `internal/config/config.go`).
- **Adding a function.** Validate the command, refuse a duplicate name, create
  `protomok/functions/<name>/index.ts`, register the function and commit
  (`internal/functions/add/add.go`).
- **The two Deno servers.** They route a request to the first configured
  function that accepts its method and whose route pattern matches
  (`internal/functions/serve/templates/local-main.ts` and `main.ts`).

The modules:

- `Wrappers`: `Option` and `Result`.
- `Errors`: the error values of the Go code. The message texts are kept.
- `Text`: string helpers, with the lemmas the path code needs.
- `Fs`: the disk, as a value `FsState`.
  - It holds the working directory, directories, files and their contents,
    paths whose stat fails, a "disk full" flag, and the table of open
    descriptors.
  - It has `Stat`, `Getwd`, `Mkdir`, `Create`, `OpenFile` with `O_WRONLY|O_TRUNC`,
    `Write`, `Close`, `WriteFile` and `ReadFile`.
  - Every operation that touches the disk takes an `FsState` and returns the
    new one.
- `Http`: headers, requests, response bodies (a class that tracks its unread
  bytes, whether it is closed, and whether reading it fails), responses, and
  the proxy's `ResponseWriter`.
- `Url`: what `url.Parse` does to the proxy's outbound URL. It cuts the
  fragment and the query, refuses control characters, and percent-decodes the path.
- `MimeTypes`, `MockSpec`, `JsonSpec`, `Recorder`, `Utils`, `Manifest`,
  `Config`, `Add`, `Serve`: one module per source package or file.

Most imperative code is modelled as a `method` proved against a function that
specifies it, such as `Effect(fs', err) == CommitEffect(...)`. The properties
are then proved about that function. Classes are used where the source mutates
an object in place:

- the recorder with its hand-off queue;
- the JSON writer's record;
- the cached configuration;
- the servers' function tables;
- response bodies.

## Model

| member | source | states |
|---|---|---|
| Recorder.Valid | internal/recorder/recorder.go:26-31 | The command is invalid exactly when the target is empty, with the message "target is required". |
| Recorder.Run | internal/recorder/recorder.go:33-80 | Validation comes first and nothing else happens when it fails. A mocks-directory error is returned unchanged and stops Run before the server starts. The artifact directory is `MocksDir/<responsesPath>`. The result is nil exactly when the context is cancelled and shutdown succeeds. A failed shutdown is wrapped as "failed to shut down recorder gracefully" and leaves the worker running. A server failure is wrapped as "server error" and stops the worker. |
| Recorder.OutboundRequest | internal/recorder/recorder.go:95-102 | The proxied request keeps the inbound method, headers and body, and its URL string is the target followed by the inbound (decoded) path. Building it parses that URL again: it exists exactly when `Url.Parse` accepts the URL, and its path and query are the ones `Url.Parse` finds there, not the inbound ones. |
| Recorder.PlainPathProxied | internal/recorder/recorder.go:95-96 | An inbound path with no '%', '?', '#' or control character is proxied, and so recorded, unchanged and with no query. |
| Recorder.DecodedQuestionMarkStartsQuery | internal/recorder/recorder.go:95-96 | An inbound `/a%3Fb` (decoded `/a?b`) is proxied to path `/a` with query `b`, and its artifact is named `_a.json`. |
| Recorder.DecodedHashStartsFragment | internal/recorder/recorder.go:95-96 | An inbound `/a%23b` (decoded `/a#b`) is proxied to path `/a` with no query. |
| Recorder.DecodedPercentDecodedAgain | internal/recorder/recorder.go:95-96 | An inbound `/a%2541` (decoded `/a%41`) is decoded a second time and proxied to path `/aA`. |
| Url.Parse | internal/recorder/recorder.go:95-96 | url.Parse on the target followed by a path. It succeeds exactly when there is no control character before the first '#', and both the path part (before the first '?') and a non-empty fragment unescape. Then the path is the unescaped path part and the raw query is what lies between the first '?' and the first '#'. |
| Url.UnescapeFails | internal/recorder/recorder.go:95-96 | Unescaping fails exactly when some '%' is not followed by two hex digits. |
| Url.UnescapePlain | internal/recorder/recorder.go:95-96 | A string without '%' unescapes to itself. |
| Url.UnescapeEscape | internal/recorder/recorder.go:95-96 | Unescaping undoes percent-escaping of '%', '?', '#' and control characters, for every string of characters below 256. |
| Url.PlainPathKept | internal/recorder/recorder.go:95-96 | A path with no '%', '?', '#' or control character parses back to itself, with an empty query. |
| Url.EscapedPathRoundTrip | internal/recorder/recorder.go:95-96 | The escaped form of a path parses back to exactly that path, with an empty query. The proxy joins the decoded path unescaped, which is what the other lemmas show going wrong. |
| Recorder.QueryDropped | internal/recorder/recorder.go:95 | Two requests that differ only in their query string are proxied identically. |
| Recorder.CloneResponse | internal/recorder/recorder.go:126-142 | A body that fails to read gives the error, and the response is left as it was. Otherwise the original body is closed and replaced by a fresh reader over the same bytes. The clone has its own fresh reader over those bytes, with status, headers and request shared. |
| Recorder.ResolveWriter | internal/recorder/recorder.go:163-178 | Only a Content-Type exactly equal to application/json gets a writer. Its descriptor is the created, truncated file `targetDir/<MockFileNameFromPath(path)>`. A create error is returned as is. Every other content type gets a nil writer, no error, and an untouched disk. |
| Recorder.StepEffect | internal/recorder/recorder.go:144-161 | One worker iteration with the nil writer skipped, as evidently intended. A non-JSON exchange leaves the disk unchanged. The writer cannot be resolved exactly when the artifact file cannot be created: it is neither a regular file nor a missing entry whose directory exists. No directory is made. Only the artifact file can change. An exchange is persisted exactly when it is JSON, its file can be created, its body decodes and the disk takes the encoded bytes. A persisted exchange leaves exactly the encoded artifact in that file and closes the descriptor. A failed write leaves one descriptor open, and a decode failure leaves the file truncated to empty. The step never panics. |
| Recorder.StepStages | internal/recorder/recorder.go:147-155 | The iteration's effect on the disk (Step) equals resolving the writer, writing the response and closing the writer one after the other, for every input. |
| Recorder.StepAsWritten | internal/recorder/recorder.go:148-155 | As written: a non-JSON exchange reaches the call on the nil writer, which panics. A JSON exchange behaves like Step. |
| Recorder.Persist | internal/recorder/recorder.go:144-161 | The corrected worker over the exchanges it receives, in order, with one outcome per exchange. |
| Recorder.PersistFront | internal/recorder/recorder.go:144-161 | The corrected worker handles the first exchange, then the rest from the disk it left. |
| Recorder.PersistAsWritten | internal/recorder/recorder.go:144-161 | The worker as written: at most one outcome per exchange, only the last outcome can be a panic, and exchanges go unhandled only after a panic. |
| Recorder.AllJsonAsWritten | internal/recorder/recorder.go:144-161 | When every exchange is application/json, the worker as written does exactly what the corrected worker does. |
| Recorder.LeakedDescriptors | internal/recorder/recorder.go:152-155 | Close is skipped after a failed write, so the open-descriptor count grows by exactly the number of failed writes. |
| Recorder.OnlyArtifactsWritten | internal/recorder/recorder.go:166-170 | Any file that is not the artifact of a received exchange keeps its presence and content. No directory is created and the working directory is unchanged. |
| Recorder.RecordingTwiceOverwrites | internal/recorder/recorder.go:166-170 | Two JSON recordings of the same path, on a creatable file with decodable bodies and room on disk, write one file, which holds the second artifact, and add at most that one file. |
| Recorder.CharsetParameterNotRecorded | internal/recorder/recorder.go:168-169 | A `application/json; charset=utf-8` response is not recorded, because the content-type match is exact. |
| Recorder.NilWriterEndsWorker | internal/recorder/recorder.go:148-155 | As written, a text/plain exchange followed by a JSON one ends in a panic and the JSON exchange is never persisted. The corrected worker skips the first and persists the second, given a creatable artifact file, a decodable body and room on disk. |
| Recorder.Captures | internal/recorder/recorder.go:89-91 | The exchanges carried by the queued responses, one per response and in order. |
| Recorder.AnsweredRequest | internal/recorder/recorder.go:101-105 | The request a response reports (`res.Request`): the outbound request when the client followed no redirect, otherwise the last request it sent. |
| Recorder.Recorder.ServeHTTP | internal/recorder/recorder.go:93-124 | A request the URL parse refuses, a transport error or an unreadable body ends the exchange with nothing handed off and nothing copied. Otherwise exactly one fresh clone is appended to the hand-off queue, after the earlier ones, with the upstream status and headers and the full body. Its request is the answered request: the outbound one, or the last redirect target. Its captured verb and path, which name the artifact and fill the record, are that request's. The whole body is copied to the client. The queue invariant is kept: every queued response has its own readable body. |
| Recorder.Recorder.GetMockWriterFromTargetResponse | internal/recorder/recorder.go:163-178 | Agrees with ResolveWriter. A writer exists only on the JSON path, is fresh, holds the created descriptor and starts with an empty record. |
| Recorder.Recorder.HandleResponse | internal/recorder/recorder.go:147-155 | One iteration of the corrected worker equals Step on the response's exchange. |
| Recorder.Recorder.ProcessResponses | internal/recorder/recorder.go:144-161 | The first `done` queued responses are handled in order, each by Step on its captured exchange, starting from the disk the previous one left. One outcome comes per handled response. The rest of the queue is never received. |
| Recorder.ChainIsPersist | internal/recorder/recorder.go:144-161 | Such a run of steps, each from the previous state, is exactly Persist over those exchanges. |
| MockSpec.MockFileNameFromPath | internal/mockspec/mockspec.go:28-30 | The name is the path with every '/' replaced by '_', followed by ".json". It is five characters longer and holds no '/'. |
| MockSpec.FileNameCollision | internal/mockspec/mockspec.go:28-30 | The naming is not injective: `/a/b` and `/a_b` both map to `_a_b.json`. |
| MockSpec.UsersExample | internal/mockspec/mockspec.go:28-30 | `/users/42` is stored as `_users_42.json`. |
| MockSpec.NameFromCharacters | internal/mockspec/mockspec.go:28-30 | The character-by-character description of the name determines it completely. |
| MimeTypes.ContentTypeFor | internal/mockspec/mimetypes/mimetypes.go:24-39 | Every extension in the table starts with '.' and maps to one of the declared content types. It never maps to the form, multipart or octet-stream types. |
| MimeTypes.JpegSharesType | internal/mockspec/mimetypes/mimetypes.go:31-32 | `.jpg` and `.jpeg` share image/jpeg, so the table is not injective. |
| MimeTypes.JsonExtension | internal/mockspec/mimetypes/mimetypes.go:5 | `.json` maps to application/json, the one type the recorder persists. |
| JsonSpec.ArtifactOf | internal/mockspec/json/jsonspec.go:23-45 | The stored record has the request method and path. Both of its header fields are the response headers. Its body is the decoded object. |
| JsonSpec.WriteEffect | internal/mockspec/json/jsonspec.go:34-44 | A decode error is returned with the disk untouched. Otherwise the encoded record is appended through the descriptor in one write, which succeeds exactly when the descriptor is open and the disk is not full. Descriptors and directories are unchanged. |
| JsonSpec.Spec.New | internal/mockspec/json/jsonspec.go:17-21 | A new writer holds the given descriptor and an empty record. |
| JsonSpec.Spec.WriteResponse | internal/mockspec/json/jsonspec.go:23-45 | The request fields and response headers are set first. A read error returns before anything else. After a successful read the body is closed and drained, and the disk changes exactly as WriteEffect says. The body field is set only when decoding succeeds. |
| JsonSpec.Spec.Close | internal/mockspec/json/jsonspec.go:47-49 | The descriptor is released. Closing it again is an error. |
| Utils.FileNameOf | internal/utils/path.go:12-38 | The empty pattern is rejected with "invalid pattern". Any other pattern gives a name that ends in ".ts" and holds no '/'. |
| Utils.PathPatternToFileName | internal/utils/path.go:12-38 | The loop over the segments returns "" and the error for the empty pattern. Otherwise it returns FileNameOf's name with no error. |
| Utils.FileNameToHttpPath | internal/utils/path.go:41-46 | One ".ts" suffix is dropped. The rest is copied character by character behind a leading '/', with '$' turned into ':' and '.' into '/', so the result holds neither '$' nor '.'. |
| Utils.ConvertSegmentBack | internal/utils/path.go:24-29 | A segment converted to file-name form and back is itself again, provided it holds no '$'. |
| Utils.PatternRoundTrip | internal/utils/path.go:12-46 | A non-empty pattern without '.' or '$' comes back unchanged from its file name, with a leading '/' added when it had none. |
| Utils.LeadingSlashIgnored | internal/utils/path.go:17-21 | `p` and `/p` name the same file. |
| Utils.FileNameExamples | internal/utils/path_test.go:16-27 | `users/:id` and `/users/:id` both give `users.$id.ts`, and "" gives "invalid pattern". |
| Utils.ParametersExample | internal/utils/path_test.go:28-31 | `/oh/:id/my/god/:what` gives `oh.$id.my.god.$what.ts`. |
| Utils.DottedSegmentExample | internal/utils/path_test.go:32-35 | `/some/png.png` gives `some.png.png.ts`: a dot inside a segment is kept. |
| Manifest.Unmarshal | internal/config/manifest.go:201-206 | A decoded manifest never carries a root directory or a format, because those fields are unexported. |
| Manifest.MarshalRoundTrip | internal/config/manifest.go:194-206 | What marshal writes, unmarshal reads back in the same format as the manifest with its root directory and format cleared, for encoders that read back what they write. |
| Manifest.ManifestFile | internal/config/config.go:70-74 | The JSON manifest file for the JSON format, and the YAML file for every other format. |
| Manifest.ConfigPath | internal/config/manifest.go:45-51 | `rootDir/protomok/pmok.yaml` for YAML, and the JSON file for every other format. |
| Manifest.ConfigPathAgreesWithManifestFile | internal/config/manifest.go:45-51 | For the two real formats, ConfigPath is the manifest file under rootDir. An unknown format gets the JSON file from ConfigPath but the YAML file from the reader. |
| Manifest.Copy | internal/config/manifest.go:53-62 | The copy equals the original in every field. |
| Manifest.NewJSONConfig | internal/config/manifest.go:72-79 | JSON format, version 0.01, the argument's project, no functions and no root directory. |
| Manifest.NewYAMLConfig | internal/config/manifest.go:81-88 | YAML format, version 0.01, the argument's project, no functions and no root directory. |
| Manifest.NewConfigsDifferOnlyInFormat | internal/config/manifest.go:72-88 | The two constructors differ only in the format and depend only on the project. |
| Manifest.HasProject | internal/config/manifest.go:94-113 | A getwd error is returned. The result is "" exactly when `cwd/protomok` does not exist. Any other stat outcome, a failure included, returns `cwd/protomok`. |
| Manifest.ResolveProjectDir | internal/config/manifest.go:115-131 | The upward walk terminates and returns the value of ProjectDirOf. |
| Manifest.NearestProjectDir | internal/config/manifest.go:115-131 | A found directory comes from the nearest ancestor, the start included, that holds a `protomok` directory. No closer ancestor holds one. |
| Manifest.ProjectDirIsAncestor | internal/config/manifest.go:121-122 | When that ancestor is written without a trailing '/', the found directory is the ancestor itself. |
| Manifest.NoProjectDir | internal/config/manifest.go:124-127 | The walk fails, with "unable to find protomok project directory", only when no ancestor at all holds `protomok`. |
| Manifest.ManifestTargetAsWritten | internal/config/manifest.go:183-186 | As written, the manifest is written to `protomok/pmok.yaml` whatever the format. |
| Manifest.WriteProjectFiles | internal/config/manifest.go:163-192 | The steps are mkdir rootDir, mkdir `protomok/functions`, marshal, and write the manifest to the given file. Each mkdir needs a missing entry whose parent directory exists. It succeeds exactly when all four can succeed, and then the disk holds exactly the two new directories and the written manifest. A root that exists or has no parent leaves the disk unchanged. On any failure, nothing but those two directories and the manifest file can have changed. |
| Manifest.CreateProtomokFiles | internal/config/manifest.go:163-192 | The steps above with the manifest of the project's own format, with the same success condition, result and failure frame. |
| Manifest.CreateProtomokFilesAsWritten | internal/config/manifest.go:163-192 | The steps above with the manifest written to `protomok/pmok.yaml` whatever the format. |
| Manifest.ProjectRoot | internal/config/manifest.go:143-157 | A getwd error is returned. An existing `cwd/protomok` (or one that cannot be examined) gives "already exists". Otherwise the manifest gets rootDir `cwd/protomok`. |
| Manifest.InitializeProject | internal/config/manifest.go:135-161 | InitializeProject with the corrected createProtomokFiles. The ProjectRoot refusals leave the manifest and the disk unchanged. Otherwise rootDir becomes `cwd/protomok` and the project files are created with the manifest of the project's own format: success exactly when creation can succeed, no change at all when the parent of `cwd/protomok` is missing, and on failure nothing but the two directories and the manifest file can have changed. |
| Manifest.InitializeProjectAsWritten | internal/config/manifest.go:135-161 | InitializeProject as written: the same refusals, then createProtomokFiles as written, so the manifest goes to `protomok/pmok.yaml` whatever the format, with the same success condition and failure frame for that file. |
| Manifest.JsonProjectWrittenAsYaml | internal/config/manifest.go:183-186 | After a successful CreateProtomokFilesAsWritten, a JSON project has no `protomok/pmok.json`, so format detection reports YAML. After a successful CreateProtomokFiles that file is there. |
| Manifest.InitializedRootDirIsOneLevelDeeper | internal/config/manifest.go:146-152 | After initialisation, loading finds `cwd` as the project directory while the returned manifest has rootDir `cwd/protomok`. ConfigPath on that manifest names a file under `cwd/protomok/protomok`. |
| Config.CheckFormat | internal/config/config.go:86-92 | YAML exactly when `loc/protomok/pmok.json` does not exist, and JSON otherwise, including when its stat fails. |
| Config.ReadManifestFile | internal/config/config.go:69-84 | Reads the manifest of the detected format. It succeeds exactly when that file exists as a file, returning its content and the format. On failure it returns no data and no format. |
| Config.LoadConfig | internal/config/config.go:42-66 | Nothing without a working directory or a project directory. Given both, a manifest is loaded exactly when the file of the detected format exists as a file and decodes. A loaded manifest has the found directory as rootDir and the detected format. Its ConfigPath is the file it was read from, and that file decodes to it. |
| Config.Config.GetProjectDir | internal/config/config.go:17-19 | The manifest's rootDir. |
| Config.Config.Commit | internal/config/config.go:22-35 | Equals CommitEffect on the current manifest. |
| Config.CommitEffect | internal/config/config.go:22-35 | A marshal error is returned. A missing manifest file is an error, because the file is never created. A directory or an unexaminable path is an error with nothing changed. On an existing file, the commit succeeds exactly when the disk can take the bytes. The file then holds exactly the marshalled manifest, or is left truncated when the write fails. |
| Config.ConfigCache.GetConfig | internal/config/config.go:37-67 | The first call runs the initialiser, and later calls return the same pointer. The result is null exactly when the first load failed. On success it is a fresh Config holding LoadConfig's manifest. |
| Add.Valid | internal/functions/add/add.go:27-35 | The name is checked before the path, each with its own message. The command is valid exactly when both are set. |
| Add.Register | internal/functions/add/add.go:46-59 | A taken name is refused with "function with name <name> already exists". Otherwise exactly one entry is added, `{path, "index.ts", methods}`, and every existing entry is kept. |
| Add.FunctionFileEffect | internal/functions/add/add.go:64-77 | A function directory that exists, or whose parent directory does not, is an error with nothing changed. Success, exactly when the directory can be made, the index file can then be created and the disk can take the template, adds the directory and an `index.ts` holding the template. When the index file cannot be created the new directory stays. When the write fails the directory stays with an empty `index.ts`. Nothing else changes, and descriptors are balanced. |
| Add.CreateFunctionFile | internal/functions/add/add.go:64-77 | Equals FunctionFileEffect. |
| Add.AddFunction | internal/functions/add/add.go:37-62 | Validation comes before loading. A missing config gives ConfigNotFound. A duplicate name is refused before the disk is touched. A failed file creation stops before the manifest changes. Otherwise the manifest gains the Register entry and is committed over the disk left by the file creation. |
| Serve.Upper | internal/functions/serve/templates/local-main.ts:54 | Upper-casing keeps the length, turns every lower-case ASCII letter into its upper-case letter and leaves every other character. |
| Serve.FirstMatch | internal/functions/serve/templates/local-main.ts:43-68 | No function means the empty match: key "", null function and no params. |
| Serve.FindMatch | internal/functions/serve/templates/local-main.ts:43-68 | The loop with `continue` and `break` returns FirstMatch. |
| Serve.MatchIsFirst | internal/functions/serve/templates/main.ts:25-50 | A match is the first table entry that accepts the method and whose pattern matches, with that match's pathname groups as params. |
| Serve.NoMatchMeansNoneQualifies | internal/functions/serve/templates/main.ts:25-50 | There is no match exactly when no entry qualifies. |
| Serve.LowercaseMethodsNeverMatch | internal/functions/serve/templates/local-main.ts:52-56 | A function whose methods all hold a lower-case letter, and which has no "*", is never selected. |
| Serve.LocalServer.Start | internal/functions/serve/templates/local-main.ts:26-41 | Reads `cwd/protomok/pmok.<encoding>` and parses it as JSON exactly when the encoding is "json", otherwise as YAML. It installs the parsed functions, and stops without serving on a read or parse failure. |
| Serve.LocalServer.Handle | internal/functions/serve/templates/local-main.ts:77-97 | 404 "Not Found" without a match. Otherwise it dispatches to `cwd/protomok/functions/<name>/<entrypoint>` with the match's params. |
| Serve.EdgeServer.constructor | internal/functions/serve/templates/main.ts:13-23 | The parsed table, or the empty table when the configuration does not parse. |
| Serve.EdgeServer.Handle | internal/functions/serve/templates/main.ts:52-70 | 404 without a match, which is always the case with an empty table. Otherwise it dispatches to `protomok/functions/<name>/index.ts` whatever the configured entrypoint. |

## Left out

- The HTTP server, `ListenAndServe`, the goroutines, the `select` and the five-second shutdown timeout are not modelled. `Recorder.Run` takes the way the server stops as a parameter. The hand-off channel is the sequence of everything sent on it, which the worker reads up to its `done` point. Blocking on an unbuffered channel is not modelled.
- `config.MocksDir` and `config.CreateMocksDirIfNotExist` are not part of this model. Run takes the mocks directory and the result of creating it as parameters.
- `encoding/json`, `gopkg.in/yaml.v3`, the YAML and JSON parsers of the Deno servers, and `URLPattern` are parameters (function-typed codecs). Formatting details such as `SetIndent` are therefore not modelled. Neither is `null` decoding to a nil map without error.
- Fs: `os.Mkdir` and `os.Create` fail when the directory that would hold the entry is missing. A failure injected on that parent directory itself is not modelled.
- `filepath.Join` is modelled as concatenation with one '/', which skips an empty side. Lexical cleaning (`..`, repeated separators) is not modelled. `path.Dir` is modelled as "up to the last '/'", which is exact for cleaned paths.
- Recorder.OutboundRequest: a target URL that carries a path, query or fragment of its own, or one that does not parse, is not modelled. The target is taken to be a bare scheme and host. The inbound path is taken to start with '/', as the Go server ensures for every request except `OPTIONS *`.
- Url.Parse: strings are sequences of characters, so a "%XX" escape decodes to the character with code XX. For codes from 0x80, Go produces a single raw byte instead. Only the parts of url.Parse that a target followed by a path reaches are modelled.
- Recorder.Recorder.ServeHTTP: the redirect policy of `http.Client` is a parameter. The upstream reports the last request the client sent, if any. Which status codes are followed, how the method and body change, and the limit of ten redirects are not modelled.
- Http.HeaderGet: header-name canonicalisation is not modelled. Keys are taken as canonical, and the first value is returned.
- Manifest.Copy: the Go copy shares the `Functions` map with the original, so later writes through either are seen by both. The value model cannot show that aliasing.
- Manifest.InitializeProject: the Go function sets `rootDir` through the caller's pointer. The model returns the updated manifest instead.
- Manifest.InitializeProject: runs the corrected createProtomokFiles, which writes the manifest of the project's own format. The call at manifest.go:159 runs createProtomokFiles as written, which always writes `protomok/pmok.yaml`. Manifest.InitializeProjectAsWritten models that call.
- Add.AddFunction: a manifest whose `Functions` map is nil (a manifest file without `functions`) makes the Go insertion panic. The model treats an absent map as empty.
- Config.ReadManifestFile: an error while copying the opened file is merged into the open failure. `Fs.ReadFile` does not tell the two apart, so the model returns no format in that case, where the Go code returns the detected format.
- The `sync.Once` of `GetConfig` is a `done` flag. Concurrent first calls are not modelled.
- Serve.Upper: only ASCII letters are upper-cased. `toUpperCase`'s other Unicode mappings are not modelled.
- Serve: the function table is a sequence in the iteration order of `for ... in`. JavaScript's ordering rule for integer-like keys is not modelled.
- Serve.EdgeServer.Handle: creating the user worker (`EdgeRuntime.userWorkers.create`), its options and the 500 reply on failure are not modelled. Neither are the Deno runtime, the dynamic `import` of the local server, or the call of the function's handler.
- The Docker container manager (`internal/functions/serve/serve.go`, `docker/`), the name generator, the terminal UI, the `cmd` package and `utils.Slashify` are outside this core and not modelled.
- Messages printed to the console are not modelled.

## Findings

| source | as written | input that shows it | evidently intended | confidence | as-written member | corrected member |
|---|---|---|---|---|---|---|
| internal/recorder/recorder.go:149-155, 177 | For any content type other than application/json, getMockWriterFromTargetResponse returns a nil MockWriter and a nil error. The worker checks only the error and then calls `WriteResponse` on the nil writer, which panics and ends the process. | A proxied response with `Content-Type: text/plain`, followed by one with `application/json` | Skip exchanges without a writer and keep recording the later JSON ones | high (not executed) | Recorder.NilWriterEndsWorker | Recorder.Recorder.ProcessResponses |
| internal/config/manifest.go:183-186 | Both branches of the format test choose `protomok/pmok.yaml`, so a JSON project's manifest is written as `pmok.yaml`. Format detection then reports YAML. | `InitializeProjectAsWritten` on a manifest made by `NewJSONConfig` | Write `protomok/pmok.json` for the JSON format, as `readManifestFile` and `manifest_test.go:156-158` expect | high (not executed) | Manifest.JsonProjectWrittenAsYaml | Manifest.CreateProtomokFiles |
