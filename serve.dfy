/** The function servers that run inside the container: the local server of
    internal/functions/serve/templates/local-main.ts and the edge-runtime server
    of internal/functions/serve/templates/main.ts. Both route a request to the
    first configured function that accepts its method and whose route pattern
    matches its URL. */
module Serve {
  import opened Wrappers
  import opened Errors
  import opened Fs
  import opened Manifest

  datatype Request = Request(verb: string, url: string)

  /** The pathname groups of a URL pattern match; a group may be undefined. */
  type Params = map<string, Option<string>>

  /** The function table in the iteration order of `for ... in`, which for a
      parsed object is the order of its own property keys. */
  type FunctionTable = seq<(string, Function)>

  /** `new URLPattern({ pathname }).exec(url)`, which is not part of this model:
      the pathname groups on a match, None otherwise. */
  type PatternExec = (string, string) -> Option<Params>

  /** One character upper-cased: ASCII lower-case letters move down by 32. */
  function UpperChar(c: char): char
  {
    if 'a' <= c <= 'z' then (c as int - 32) as char else c
  }

  /** String.prototype.toUpperCase on ASCII letters. */
  function Upper(s: string): (r: string)
    ensures |r| == |s|
    ensures forall i :: 0 <= i < |s| ==> !('a' <= r[i] <= 'z')
    ensures forall i :: 0 <= i < |s| && 'a' <= s[i] <= 'z' ==> r[i] == (s[i] as int - 32) as char
    ensures forall i :: 0 <= i < |s| && !('a' <= s[i] <= 'z') ==> r[i] == s[i]
  {
    seq(|s|, i requires 0 <= i < |s| => UpperChar(s[i]))
  }

  /** The method filter: a function is considered only when its methods hold
      "*" or the upper-cased request method. */
  predicate AllowsMethod(fn: Function, verb: string)
  {
    "*" in fn.allowedMethods || Upper(verb) in fn.allowedMethods
  }

  predicate Qualifies(entry: (string, Function), req: Request, exec: PatternExec)
  {
    AllowsMethod(entry.1, req.verb) && exec(entry.1.httpPathname, req.url).Some?
  }

  /** findMatch's result: the key, the function (null when none) and the params. */
  datatype Match = Match(key: string, fn: Option<Function>, params: Params)

  const NoMatch: Match := Match("", None, map[])

  /** The first entry, in table order, that passes the method filter and whose
      pattern matches. */
  function FirstMatch(table: FunctionTable, req: Request, exec: PatternExec): (m: Match)
    ensures m.fn.None? ==> m == NoMatch
    decreases |table|
  {
    if table == [] then NoMatch
    else
      var (name, fn) := table[0];
      if !AllowsMethod(fn, req.verb) then FirstMatch(table[1..], req, exec)
      else
        match exec(fn.httpPathname, req.url)
        case None => FirstMatch(table[1..], req, exec)
        case Some(p) => Match(name, Some(fn), p)
  }

  /** findMatch, with its loop that skips with `continue` and stops at the
      first hit with `break`. */
  method FindMatch(table: FunctionTable, req: Request, exec: PatternExec) returns (key: string, fn: Option<Function>, params: Params)
    ensures Match(key, fn, params) == FirstMatch(table, req, exec)
  {
    key, fn, params := "", None, map[];
    var i := 0;
    while i < |table|
      invariant 0 <= i <= |table|
      invariant FirstMatch(table[i..], req, exec) == FirstMatch(table, req, exec)
      invariant key == "" && fn.None? && params == map[]
    {
      assert table[i..][1..] == table[i + 1..];
      var (name, f) := table[i];
      if "*" !in f.allowedMethods && Upper(req.verb) !in f.allowedMethods {
        i := i + 1;
        continue;
      }
      var patternMatch := exec(f.httpPathname, req.url);
      if patternMatch.None? {
        i := i + 1;
        continue;
      }
      params := patternMatch.value;
      fn := Some(f);
      key := name;
      break;
    }
  }

  /** A match is the first qualifying entry: it is at some index `i`, it
      qualifies there with these params, and no earlier entry qualifies. */
  lemma {:induction false} MatchIsFirst(table: FunctionTable, req: Request, exec: PatternExec) returns (i: nat)
    requires FirstMatch(table, req, exec).fn.Some?
    ensures i < |table|
    ensures var m := FirstMatch(table, req, exec);
      && table[i] == (m.key, m.fn.value)
      && AllowsMethod(m.fn.value, req.verb)
      && exec(m.fn.value.httpPathname, req.url) == Some(m.params)
    ensures forall j :: 0 <= j < i ==> !Qualifies(table[j], req, exec)
    decreases |table|
  {
    if Qualifies(table[0], req, exec) {
      i := 0;
    } else {
      var i' := MatchIsFirst(table[1..], req, exec);
      i := i' + 1;
      forall j | 0 <= j < i ensures !Qualifies(table[j], req, exec) {
        if j > 0 {
          assert table[j] == table[1..][j - 1];
        }
      }
    }
  }

  /** No match exactly when no entry qualifies. */
  lemma {:induction false} NoMatchMeansNoneQualifies(table: FunctionTable, req: Request, exec: PatternExec)
    ensures FirstMatch(table, req, exec).fn.None? <==> forall j :: 0 <= j < |table| ==> !Qualifies(table[j], req, exec)
    decreases |table|
  {
    if table != [] {
      NoMatchMeansNoneQualifies(table[1..], req, exec);
      assert forall j :: 1 <= j < |table| ==> table[j] == table[1..][j - 1];
    }
  }

  /** Configured methods are compared as written: an entry holding a lower-case
      letter never equals an upper-cased request method, so a function listing
      only such entries, and no "*", is never selected. */
  lemma LowercaseMethodsNeverMatch(fn: Function, verb: string)
    requires "*" !in fn.allowedMethods
    requires forall m :: m in fn.allowedMethods ==> exists i :: 0 <= i < |m| && 'a' <= m[i] <= 'z'
    ensures !AllowsMethod(fn, verb)
  {
  }

  /** What a server does with a request. */
  datatype Reply =
    | NotFound(status: int, body: string)
    | Dispatch(entrypoint: string, params: Params)

  const NotFoundReply: Reply := NotFound(404, "Not Found")

  /** The local server of local-main.ts. */
  class LocalServer {
    const encoding: string
    var functionConfig: FunctionTable

    constructor (encoding: string)
      ensures this.encoding == encoding && functionConfig == []
    {
      this.encoding := encoding;
      functionConfig := [];
    }

    /** readConfig reads `cwd/protomok/pmok.<encoding>`. */
    function ConfigFile(cwd: string): string
    {
      PathJoin(cwd, "protomok/pmok." + encoding)
    }

    /** main: reads the config, parses it as JSON when the encoding is "json"
        and as YAML for any other encoding, and installs its functions; a read
        or parse failure stops the server before it serves anything. */
    method Start(fs: FsState, parseJson: Bytes -> Result<FunctionTable, Error>,
                 parseYaml: Bytes -> Result<FunctionTable, Error>) returns (started: bool)
      modifies this
      ensures var data := ReadFile(fs, ConfigFile(fs.cwd));
        && (data.Err? ==> !started)
        && (data.Ok? ==>
              var parsed := if encoding == "json" then parseJson(data.value) else parseYaml(data.value);
              && (started <==> parsed.Ok?)
              && (started ==> functionConfig == parsed.value))
      ensures !started ==> functionConfig == old(functionConfig)
    {
      var data := ReadFile(fs, ConfigFile(fs.cwd));
      if data.Err? {
        return false;
      }
      var json := if encoding == "json" then parseJson(data.value) else parseYaml(data.value);
      if json.Err? {
        return false;
      }
      functionConfig := json.value;
      return true;
    }

    /** The handler: 404 "Not Found" without a match, otherwise the module
        `cwd/protomok/functions/<name>/<entrypoint>` with the match's params. */
    method Handle(req: Request, cwd: string, exec: PatternExec) returns (r: Reply)
      ensures var m := FirstMatch(functionConfig, req, exec);
        && (m.fn.None? ==> r == NotFoundReply)
        && (m.fn.Some? ==>
              r == Dispatch(PathJoin(cwd, "protomok/functions/" + m.key + "/" + m.fn.value.entrypoint), m.params))
    {
      var name, fn, params := FindMatch(functionConfig, req, exec);
      if fn.None? {
        return NotFoundReply;
      }
      var entrypoint := PathJoin(cwd, "protomok/functions/" + name + "/" + fn.value.entrypoint);
      return Dispatch(entrypoint, params);
    }
  }

  /** The edge-runtime server of main.ts. */
  class EdgeServer {
    var functionConfig: FunctionTable

    /** parseConfig: the table parsed from the environment variable, or the
        empty table when it does not parse. */
    constructor (config: string, parseJson: string -> Result<FunctionTable, Error>)
      ensures parseJson(config).Ok? ==> functionConfig == parseJson(config).value
      ensures parseJson(config).Err? ==> functionConfig == []
    {
      var parsed := parseJson(config);
      functionConfig := [];
      if parsed.Ok? {
        functionConfig := parsed.value;
      }
    }

    /** The handler: 404 without a match, otherwise the user worker rooted at
        `protomok/functions/<name>`, whose entry point is always `index.ts`
        whatever the configured entrypoint. */
    method Handle(req: Request, cwd: string, exec: PatternExec) returns (r: Reply)
      ensures functionConfig == [] ==> r == NotFoundReply
      ensures var m := FirstMatch(functionConfig, req, exec);
        && (m.fn.None? ==> r == NotFoundReply)
        && (m.fn.Some? ==> r == Dispatch(PathJoin(cwd, "protomok/functions/" + m.key + "/index.ts"), m.params))
    {
      var name, fn, params := FindMatch(functionConfig, req, exec);
      if fn.None? {
        return NotFoundReply;
      }
      var absEntryPoint := PathJoin(cwd, "protomok/functions/" + name + "/index.ts");
      return Dispatch(absEntryPoint, params);
    }
  }
}
