/** internal/functions/add/add.go: registering a new function in the project. */
module Add {
  import opened Wrappers
  import opened Errors
  import opened Fs
  import opened Manifest
  import opened Config

  datatype AddFunctionCommand = AddFunctionCommand(name: string, httpPath: string, allowedMethods: seq<string>)

  /** AddFunctionCommand.Valid: the name is checked before the path. */
  function Valid(c: AddFunctionCommand): (err: Option<Error>)
    ensures err.None? <==> c.name != "" && c.httpPath != ""
    ensures c.name == "" ==> err == Some(Message("name is required"))
    ensures c.name != "" && c.httpPath == "" ==> err == Some(Message("path is required"))
  {
    if c.name == "" then Some(Message("name is required"))
    else if c.httpPath == "" then Some(Message("path is required"))
    else None
  }

  /** The entry a command adds, refused when the name is taken. */
  function Register(functions: FunctionConfig, c: AddFunctionCommand): (r: Result<FunctionConfig, Error>)
    ensures r.Err? <==> c.name in functions
    ensures r.Err? ==> r.error == Message("function with name " + c.name + " already exists")
    ensures r.Ok? ==>
      && r.value.Keys == functions.Keys + {c.name}
      && |r.value| == |functions| + 1
      && r.value[c.name] == Function(c.httpPath, "index.ts", c.allowedMethods)
      && forall n :: n in functions ==> r.value[n] == functions[n]
  {
    if c.name in functions then Err(Message("function with name " + c.name + " already exists"))
    else
      var r := functions[c.name := Function(c.httpPath, "index.ts", c.allowedMethods)];
      assert r.Keys == functions.Keys + {c.name};
      Ok(r)
  }

  /** The directory of a function: `root/protomok/functions/<name>`. */
  function FunctionDir(projectRoot: string, name: string): string
  {
    PathJoin(PathJoin(projectRoot, FunctionsDir), name)
  }

  function IndexFile(projectRoot: string, name: string): string
  {
    PathJoin(FunctionDir(projectRoot, name), "index.ts")
  }

  /** What createFunctionFile does to the disk: it fails, changing nothing, when
      the function's directory exists in any form or cannot be made; otherwise
      the directory stays made whatever follows, and `index.ts` in it is created
      (left empty when the write fails) and holds the template on success. */
  function FunctionFileEffect(projectRoot: string, name: string, fs: FsState, template: Bytes): (e: Effect)
    ensures var dir := FunctionDir(projectRoot, name);
      var index := IndexFile(projectRoot, name);
      var made := fs.(dirs := fs.dirs + {Resolve(fs, dir)});
      && (!(Stat(fs, dir) == Missing && ParentExists(fs, dir)) ==> e.fs == fs && e.err.Some?)
      && (e.err.None? <==>
            Stat(fs, dir) == Missing && ParentExists(fs, dir) && Creatable(made, index)
            && !(fs.full && template != []))
      && (e.err.None? ==> e.fs == made.(files := fs.files[Resolve(fs, index) := template]))
      && (Stat(fs, dir) == Missing && ParentExists(fs, dir) && !Creatable(made, index) ==>
            e.fs == made && e.err.Some?)
      && (Stat(fs, dir) == Missing && ParentExists(fs, dir) && Creatable(made, index)
          && fs.full && template != [] ==>
            e.fs == made.(files := fs.files[Resolve(fs, index) := []]) && e.err.Some?)
      && e.fs.open == fs.open
  {
    var dir := FunctionDir(projectRoot, name);
    var m := Mkdir(fs, dir);
    if m.err.Some? then m
    else
      var index := IndexFile(projectRoot, name);
      var q := Resolve(fs, index);
      assert Resolve(m.fs, index) == q;
      var f := Create(m.fs, index);
      if f.fd.Err? then Effect(f.fs, Some(f.fd.error))
      else
        var fd := f.fd.value;
        assert f.fs == m.fs.(files := fs.files[q := []], open := fs.open[fd := q]);
        var w := Write(f.fs, fd, template);
        assert Content(f.fs, q) + template == template;
        var c := Close(w.fs, fd);
        assert c.fs.open == fs.open;
        Effect(c.fs, w.err)
  }

  /** createFunctionFile, proved against FunctionFileEffect; the deferred Close
      runs on every path after a successful Create and its error is dropped. */
  method CreateFunctionFile(projectRoot: string, name: string, fs: FsState, template: Bytes)
    returns (fs': FsState, err: Option<Error>)
    ensures Effect(fs', err) == FunctionFileEffect(projectRoot, name, fs, template)
  {
    var dir := FunctionDir(projectRoot, name);
    var m := Mkdir(fs, dir);
    if m.err.Some? {
      return m.fs, m.err;
    }
    var file := Create(m.fs, PathJoin(dir, "index.ts"));
    if file.fd.Err? {
      return file.fs, Some(file.fd.error);
    }
    var w := Write(file.fs, file.fd.value, template);
    var c := Close(w.fs, file.fd.value);
    return c.fs, w.err;
  }

  /** AddFunction: validation, then the cached configuration, then the name
      check, the function file, the new entry and the commit, each step ending
      the call on failure. `loaded` is the manifest GetConfig handed back. */
  method AddFunction(c: AddFunctionCommand, cache: ConfigCache, fs: FsState, codec: ManifestCodec, template: Bytes)
    returns (fs': FsState, err: Option<Error>, ghost loaded: ManifestConfig)
    requires cache.Valid()
    modifies cache, cache.cfg
    ensures cache.Valid()
    ensures Valid(c).Some? ==>
      err == Valid(c) && fs' == fs && cache.done == old(cache.done) && cache.cfg == old(cache.cfg)
    ensures Valid(c).None? ==> cache.done && (old(cache.done) ==> cache.cfg == old(cache.cfg))
    ensures Valid(c).None? && !old(cache.done) ==> (cache.cfg == null <==> LoadConfig(fs, codec).None?)
    ensures Valid(c).None? && cache.cfg == null ==> err == Some(ConfigNotFound) && fs' == fs
    ensures Valid(c).None? && cache.cfg != null ==>
      && (!old(cache.done) ==> LoadConfig(fs, codec) == Some(loaded))
      && (old(cache.done) && old(cache.cfg) != null ==> loaded == old(cache.cfg.manifest))
      && var reg := Register(loaded.functions, c);
      && (reg.Err? ==> err == Some(reg.error) && fs' == fs && cache.cfg.manifest == loaded)
      && (reg.Ok? ==>
            var created := FunctionFileEffect(loaded.rootDir, c.name, fs, template);
            && (created.err.Some? ==> err == created.err && fs' == created.fs && cache.cfg.manifest == loaded)
            && (created.err.None? ==>
                  && cache.cfg.manifest == loaded.(functions := reg.value)
                  && Effect(fs', err) == CommitEffect(cache.cfg.manifest, created.fs, codec)))
  {
    loaded := DefaultManifest;
    var invalid := Valid(c);
    if invalid.Some? {
      return fs, invalid, loaded;
    }
    var conf := cache.GetConfig(fs, codec);
    if conf == null {
      return fs, Some(ConfigNotFound), loaded;
    }
    loaded := conf.manifest;
    if c.name in conf.manifest.functions {
      return fs, Some(Message("function with name " + c.name + " already exists")), loaded;
    }
    var fs1, createErr := CreateFunctionFile(conf.GetProjectDir(), c.name, fs, template);
    if createErr.Some? {
      return fs1, createErr, loaded;
    }
    conf.manifest := conf.manifest.(functions :=
      conf.manifest.functions[c.name := Function(c.httpPath, "index.ts", c.allowedMethods)]);
    fs', err := conf.Commit(fs1, codec);
  }
}
