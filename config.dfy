/** internal/config/config.go: loading the manifest of the enclosing project
    once, and writing it back. */
module Config {
  import opened Wrappers
  import opened Errors
  import opened Fs
  import opened Manifest

  /** checkFormat: JSON when `loc/protomok/pmok.json` exists in any form (or
      cannot be examined), YAML when it does not exist. */
  function CheckFormat(fs: FsState, loc: string): (f: ConfigFormat)
    ensures f in {ConfigYaml, ConfigJson}
    ensures f == ConfigYaml <==> Stat(fs, PathJoin(loc, DeploymentManifestJson)) == Missing
  {
    if Stat(fs, PathJoin(loc, DeploymentManifestJson)) == Missing then ConfigYaml else ConfigJson
  }

  /** readManifestFile: reads the manifest of the detected format under `dir`;
      on failure there is no data and no format. */
  method ReadManifestFile(fs: FsState, dir: string) returns (data: Bytes, format: ConfigFormat, err: Option<Error>)
    ensures var f := CheckFormat(fs, dir);
      var p := PathJoin(dir, ManifestFile(f));
      && (err.None? <==> Stat(fs, p) == IsFile)
      && (err.None? ==> data == fs.files[Resolve(fs, p)] && format == f)
      && (err.Some? ==> data == [] && format == "")
  {
    format := CheckFormat(fs, dir);
    var manifestPath := DeploymentManifestYaml;
    if format == ConfigJson {
      manifestPath := DeploymentManifestJson;
    }
    var mfile := ReadFile(fs, PathJoin(dir, manifestPath));
    if mfile.Err? {
      return [], "", Some(mfile.error);
    }
    return mfile.value, format, None;
  }

  /** What the once-only initialiser of GetConfig produces: nothing when getwd,
      the upward walk, the read or the decoding fails; otherwise the decoded
      manifest with the detected format and the found directory as rootDir. */
  function LoadConfig(fs: FsState, codec: ManifestCodec): (r: Option<ManifestConfig>)
    ensures fs.getwdFails || ProjectDirOf(fs, fs.cwd).Err? ==> r.None?
    ensures !fs.getwdFails && ProjectDirOf(fs, fs.cwd).Ok? ==>
      var dir := ProjectDirOf(fs, fs.cwd).value;
      var f := CheckFormat(fs, dir);
      var p := PathJoin(dir, ManifestFile(f));
      (r.Some? <==> Stat(fs, p) == IsFile && Unmarshal(fs.files[Resolve(fs, p)], f, codec).Ok?)
    ensures r.Some? ==>
      && r.value.rootDir == ProjectDirOf(fs, fs.cwd).value
      && r.value.format == CheckFormat(fs, r.value.rootDir)
      && ConfigPath(r.value) == PathJoin(r.value.rootDir, ManifestFile(r.value.format))
      && var p := PathJoin(r.value.rootDir, ManifestFile(r.value.format));
         && Stat(fs, p) == IsFile
         && Unmarshal(fs.files[Resolve(fs, p)], r.value.format, codec) ==
              Ok(r.value.(rootDir := "", format := ""))
  {
    match Getwd(fs)
    case Err(_) => None
    case Ok(wd) =>
      match ProjectDirOf(fs, wd)
      case Err(_) => None
      case Ok(dir) =>
        var format := CheckFormat(fs, dir);
        match ReadFile(fs, PathJoin(dir, ManifestFile(format)))
        case Err(_) => None
        case Ok(data) =>
          match Unmarshal(data, format, codec)
          case Err(_) => None
          case Ok(m) =>
            ConfigPathAgreesWithManifestFile(m.(format := format, rootDir := dir));
            Some(m.(format := format, rootDir := dir))
  }

  class Config {
    var manifest: ManifestConfig

    constructor (manifest: ManifestConfig)
      ensures this.manifest == manifest
    {
      this.manifest := manifest;
    }

    /** GetProjectDir: the manifest's rootDir, whichever convention set it. */
    function GetProjectDir(): (d: string)
      reads this
      ensures d == manifest.rootDir
    {
      manifest.rootDir
    }

    /** Commit, proved against CommitEffect. */
    method Commit(fs: FsState, codec: ManifestCodec) returns (fs': FsState, err: Option<Error>)
      ensures Effect(fs', err) == CommitEffect(manifest, fs, codec)
    {
      var b := Marshal(manifest, codec);
      if b.Err? {
        return fs, Some(b.error);
      }
      var f := OpenExisting(fs, ConfigPath(manifest));
      if f.fd.Err? {
        return fs, Some(f.fd.error);
      }
      var w := Write(f.fs, f.fd.value, b.value);
      var c := Close(w.fs, f.fd.value);
      return c.fs, w.err;
    }
  }

  /** What Commit does to the disk: marshals the manifest and copies it into
      ConfigPath, opened write-only with truncation and without creation, so a
      missing manifest file is an error; the descriptor is closed on every path
      after a successful open. */
  function CommitEffect(m: ManifestConfig, fs: FsState, codec: ManifestCodec): (e: Effect)
    ensures var data := Marshal(m, codec);
      var p := ConfigPath(m);
      && (data.Err? ==> e == Effect(fs, Some(data.error)))
      && (data.Ok? && Stat(fs, p) == Missing ==> e == Effect(fs, Some(NotExist(Resolve(fs, p)))))
      && (data.Ok? && Stat(fs, p) in {IsDirectory, StatFailed} ==> e.fs == fs && e.err.Some?)
      && (data.Ok? && Stat(fs, p) == IsFile ==>
            && (e.err.None? <==> !(fs.full && data.value != []))
            && (e.err.None? ==> e.fs == fs.(files := fs.files[Resolve(fs, p) := data.value]))
            && (e.err.Some? ==> e.fs == fs.(files := fs.files[Resolve(fs, p) := []])))
  {
    match Marshal(m, codec)
    case Err(x) => Effect(fs, Some(x))
    case Ok(data) =>
      var f := OpenExisting(fs, ConfigPath(m));
      if f.fd.Err? then Effect(fs, Some(f.fd.error))
      else
        var q := Resolve(fs, ConfigPath(m));
        var w := Write(f.fs, f.fd.value, data);
        assert Content(f.fs, q) + data == data;
        var c := Close(w.fs, f.fd.value);
        assert c.fs.open == fs.open;
        Effect(c.fs, w.err)
  }

  /** The package-level `cfg` and `once` of GetConfig. */
  class ConfigCache {
    var done: bool
    var cfg: Config?

    /** Before the initialiser has run, nothing is cached. */
    ghost predicate Valid()
      reads this
    {
      !done ==> cfg == null
    }

    constructor ()
      ensures !done && cfg == null && Valid()
    {
      done := false;
      cfg := null;
    }

    /** GetConfig: the first call runs the initialiser, which sets `cfg` only on
        success; every call returns `cfg`, so later calls return the same
        pointer, or null again after a failed first attempt. */
    method GetConfig(fs: FsState, codec: ManifestCodec) returns (c: Config?)
      requires Valid()
      modifies this
      ensures Valid() && done && c == cfg
      ensures old(done) ==> cfg == old(cfg)
      ensures !old(done) && LoadConfig(fs, codec).None? ==> c == null
      ensures !old(done) && LoadConfig(fs, codec).Some? ==>
        c != null && fresh(c) && c.manifest == LoadConfig(fs, codec).value
    {
      if !done {
        done := true;
        var wd := Getwd(fs);
        if wd.Ok? {
          var dir := ResolveProjectDir(fs, wd.value);
          if dir.Ok? {
            var mbytes, format, err := ReadManifestFile(fs, dir.value);
            if err.None? {
              var manifest := Unmarshal(mbytes, format, codec);
              if manifest.Ok? {
                cfg := new Config(manifest.value.(format := format, rootDir := dir.value));
              }
            }
          }
        }
      }
      c := cfg;
    }
  }
}
