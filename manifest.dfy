/** internal/config/manifest.go: the project manifest, finding the project
    directory, and creating a new project on disk. */
module Manifest {
  import opened Wrappers
  import opened Errors
  import opened Fs

  type ConfigFormat = string

  const ConfigYaml: ConfigFormat := "yaml"
  const ConfigJson: ConfigFormat := "json"
  const ProtomokDir: string := "protomok"
  const FunctionsDir: string := "protomok/functions"
  const DeploymentManifestJson: string := "protomok/pmok.json"
  const DeploymentManifestYaml: string := "protomok/pmok.yaml"
  const DefaultManifestVersion: string := "0.01"

  datatype Project = Project(name: string)

  /** One served function: its route pattern, its module file and the methods
      it accepts. */
  datatype Function = Function(httpPathname: string, entrypoint: string, allowedMethods: seq<string>)

  type FunctionConfig = map<string, Function>

  /** The manifest. `rootDir` and `format` are unexported, so they never reach
      the manifest file. */
  datatype ManifestConfig = ManifestConfig(
    rootDir: string,
    format: ConfigFormat,
    version: string,
    project: Project,
    functions: FunctionConfig)

  /** The serialised part of a manifest: its exported fields. */
  datatype Document = Document(version: string, project: Project, functions: FunctionConfig)

  /** encoding/json and yaml.v3, which are not part of this model. */
  datatype ManifestCodec = ManifestCodec(
    marshalJson: Document -> Result<Bytes, Error>,
    marshalYaml: Document -> Result<Bytes, Error>,
    unmarshalJson: Bytes -> Result<Document, Error>,
    unmarshalYaml: Bytes -> Result<Document, Error>)

  /** The package-level default manifest: YAML, version 0.01, nothing else set. */
  const DefaultManifest: ManifestConfig :=
    ManifestConfig("", ConfigYaml, DefaultManifestVersion, Project(""), map[])

  function DocumentOf(c: ManifestConfig): Document
  {
    Document(c.version, c.project, c.functions)
  }

  /** marshal: JSON for the JSON format, YAML for every other format string. */
  function Marshal(c: ManifestConfig, codec: ManifestCodec): Result<Bytes, Error>
  {
    if c.format == ConfigJson then codec.marshalJson(DocumentOf(c)) else codec.marshalYaml(DocumentOf(c))
  }

  /** unmarshal into a zero manifest: only the exported fields are filled. */
  function Unmarshal(data: Bytes, format: ConfigFormat, codec: ManifestCodec): (r: Result<ManifestConfig, Error>)
    ensures r.Ok? ==> r.value.rootDir == "" && r.value.format == ""
  {
    var doc := if format == ConfigJson then codec.unmarshalJson(data) else codec.unmarshalYaml(data);
    match doc
    case Err(e) => Err(e)
    case Ok(d) => Ok(ManifestConfig("", "", d.version, d.project, d.functions))
  }

  /** What marshal writes, unmarshal reads back in the same format as the
      manifest's exported fields, for encoders that read back what they write;
      rootDir and format are lost. */
  lemma MarshalRoundTrip(c: ManifestConfig, codec: ManifestCodec)
    requires forall d :: codec.marshalJson(d).Ok? ==> codec.unmarshalJson(codec.marshalJson(d).value) == Ok(d)
    requires forall d :: codec.marshalYaml(d).Ok? ==> codec.unmarshalYaml(codec.marshalYaml(d).value) == Ok(d)
    requires Marshal(c, codec).Ok?
    ensures Unmarshal(Marshal(c, codec).value, c.format, codec) == Ok(c.(rootDir := "", format := ""))
  {
  }

  /** The manifest file, relative to the directory holding `protomok`, for a
      format: the JSON file for JSON, the YAML file otherwise. */
  function ManifestFile(format: ConfigFormat): (f: string)
    ensures f == DeploymentManifestJson <==> format == ConfigJson
    ensures f == DeploymentManifestYaml <==> format != ConfigJson
  {
    if format == ConfigJson then DeploymentManifestJson else DeploymentManifestYaml
  }

  /** ConfigPath: `rootDir/protomok/pmok.yaml` for YAML and the JSON file for
      every other format, including the JSON format. */
  function ConfigPath(c: ManifestConfig): (p: string)
    ensures c.format == ConfigYaml ==> p == PathJoin(c.rootDir, DeploymentManifestYaml)
    ensures c.format != ConfigYaml ==> p == PathJoin(c.rootDir, DeploymentManifestJson)
  {
    if c.format == ConfigYaml then PathJoin(c.rootDir, DeploymentManifestYaml)
    else PathJoin(c.rootDir, DeploymentManifestJson)
  }

  /** For the two formats the project writes, ConfigPath is the manifest file
      under `rootDir`; an unknown format string is given the JSON file by
      ConfigPath but the YAML file everywhere else. */
  lemma ConfigPathAgreesWithManifestFile(c: ManifestConfig)
    ensures c.format in {ConfigYaml, ConfigJson} ==> ConfigPath(c) == PathJoin(c.rootDir, ManifestFile(c.format))
    ensures c.format !in {ConfigYaml, ConfigJson} ==>
      ConfigPath(c) == PathJoin(c.rootDir, DeploymentManifestJson) && ManifestFile(c.format) == DeploymentManifestYaml
  {
  }

  /** Copy: a manifest equal to the original in every field. */
  function Copy(c: ManifestConfig): (m: ManifestConfig)
    ensures m.rootDir == c.rootDir && m.format == c.format && m.version == c.version
    ensures m.project == c.project && m.functions == c.functions
  {
    ManifestConfig(c.rootDir, c.format, c.version, c.project, c.functions)
  }

  /** NewJSONConfig: keeps only the project of its argument. */
  function NewJSONConfig(c: ManifestConfig): (m: ManifestConfig)
    ensures m.format == ConfigJson && m.version == DefaultManifestVersion
    ensures m.project == c.project && m.functions == map[] && m.rootDir == ""
  {
    ManifestConfig("", ConfigJson, DefaultManifestVersion, c.project, map[])
  }

  /** NewYAMLConfig: keeps only the project of its argument. */
  function NewYAMLConfig(c: ManifestConfig): (m: ManifestConfig)
    ensures m.format == ConfigYaml && m.version == DefaultManifestVersion
    ensures m.project == c.project && m.functions == map[] && m.rootDir == ""
  {
    ManifestConfig("", ConfigYaml, DefaultManifestVersion, c.project, map[])
  }

  /** The two constructors differ only in the format, and neither depends on
      anything but the project. */
  lemma NewConfigsDifferOnlyInFormat(c: ManifestConfig, d: ManifestConfig)
    requires c.project == d.project
    ensures NewJSONConfig(c) == NewYAMLConfig(d).(format := ConfigJson)
    ensures NewJSONConfig(c) == NewJSONConfig(d) && NewYAMLConfig(c) == NewYAMLConfig(d)
  {
  }

  // ---------------------------------------------------------------- finding the project

  /** HasProject: "" without error only when `cwd/protomok` does not exist; any
      other outcome of the stat, a failure included, reports the project. */
  function HasProject(fs: FsState): (r: Result<string, Error>)
    ensures r.Err? <==> fs.getwdFails
    ensures r == Ok("") <==> !fs.getwdFails && Stat(fs, PathJoin(fs.cwd, ProtomokDir)) == Missing
    ensures r.Ok? && r.value != "" ==> r.value == PathJoin(fs.cwd, ProtomokDir)
  {
    match Getwd(fs)
    case Err(e) => Err(e)
    case Ok(dir) =>
      var p := PathJoin(dir, ProtomokDir);
      if Stat(fs, p) == Missing then Ok("") else Ok(p)
  }

  /** `d` holds a `protomok` directory. */
  predicate HasProtomok(fs: FsState, d: string)
  {
    Stat(fs, PathJoin(d, ProtomokDir)) == IsDirectory
  }

  /** The `k`-th ancestor of a path, by repeated `Dir`. */
  function Ancestor(p: string, k: nat): string
    decreases k
  {
    if k == 0 then p else Ancestor(Dir(p), k - 1)
  }

  /** What ResolveProjectDir returns from a start directory. */
  function ProjectDirOf(fs: FsState, start: string): Result<string, Error>
    decreases Height(start)
  {
    var target := PathJoin(start, ProtomokDir);
    if Stat(fs, target) == IsDirectory then Ok(Dir(target))
    else
      var parent := Dir(start);
      if parent == start then Err(Message("unable to find protomok project directory"))
      else
        DirProgress(start);
        ProjectDirOf(fs, parent)
  }

  /** ResolveProjectDir: walks up from `currentDir` until a directory holding
      `protomok` is found or `Dir` stops moving. */
  method ResolveProjectDir(fs: FsState, currentDir: string) returns (r: Result<string, Error>)
    ensures r == ProjectDirOf(fs, currentDir)
  {
    var start := currentDir;
    while true
      invariant ProjectDirOf(fs, start) == ProjectDirOf(fs, currentDir)
      decreases Height(start)
    {
      var target := PathJoin(start, ProtomokDir);
      if Stat(fs, target) == IsDirectory {
        return Ok(Dir(target));
      }
      var parent := Dir(start);
      if parent == start {
        return Err(Message("unable to find protomok project directory"));
      }
      DirProgress(start);
      start := parent;
    }
  }

  /** A found project directory belongs to the nearest ancestor (the start
      included) that holds `protomok`, and is that ancestor itself when it is
      written without a trailing separator. */
  lemma {:induction false} NearestProjectDir(fs: FsState, start: string) returns (k: nat)
    requires ProjectDirOf(fs, start).Ok?
    ensures HasProtomok(fs, Ancestor(start, k))
    ensures forall j :: 0 <= j < k ==> !HasProtomok(fs, Ancestor(start, j))
    ensures ProjectDirOf(fs, start).value == Dir(PathJoin(Ancestor(start, k), ProtomokDir))
    decreases Height(start)
  {
    if HasProtomok(fs, start) {
      k := 0;
    } else {
      DirProgress(start);
      var k' := NearestProjectDir(fs, Dir(start));
      k := k' + 1;
      assert ProjectDirOf(fs, start) == ProjectDirOf(fs, Dir(start));
      assert Ancestor(start, k) == Ancestor(Dir(start), k');
      forall j | 0 <= j < k ensures !HasProtomok(fs, Ancestor(start, j)) {
        if j > 0 {
          assert Ancestor(start, j) == Ancestor(Dir(start), j - 1);
        }
      }
    }
  }

  /** The found directory is that ancestor itself when the ancestor is written
      without a trailing separator. */
  lemma ProjectDirIsAncestor(fs: FsState, start: string) returns (k: nat)
    requires ProjectDirOf(fs, start).Ok?
    ensures HasProtomok(fs, Ancestor(start, k))
    ensures forall j :: 0 <= j < k ==> !HasProtomok(fs, Ancestor(start, j))
    ensures var a := Ancestor(start, k);
      a != "" && (a == "/" || a[|a| - 1] != '/') ==> ProjectDirOf(fs, start).value == a
  {
    k := NearestProjectDir(fs, start);
    var a := Ancestor(start, k);
    if a != "" && (a == "/" || a[|a| - 1] != '/') {
      DirOfJoin(a, ProtomokDir);
    }
  }

  /** The walk fails only when no ancestor at all holds `protomok`. */
  lemma {:induction false} NoProjectDir(fs: FsState, start: string)
    requires ProjectDirOf(fs, start).Err?
    ensures forall k: nat :: !HasProtomok(fs, Ancestor(start, k))
    decreases Height(start)
  {
    DirProgress(start);
    if Dir(start) == start {
      forall k: nat ensures Ancestor(start, k) == start {
        AncestorOfRoot(start, k);
      }
    } else {
      NoProjectDir(fs, Dir(start));
      forall k: nat ensures !HasProtomok(fs, Ancestor(start, k)) {
        if k > 0 {
          assert Ancestor(start, k) == Ancestor(Dir(start), k - 1);
        }
      }
    }
  }

  lemma {:induction false} AncestorOfRoot(p: string, k: nat)
    requires Dir(p) == p
    ensures Ancestor(p, k) == p
  {
    if k > 0 {
      AncestorOfRoot(p, k - 1);
    }
  }

  // ---------------------------------------------------------------- creating a project

  /** The file createProtomokFiles writes the manifest to, as evidently
      intended: the file of the manifest's own format, as readManifestFile
      and the package's tests look for. */
  function ManifestTarget(c: ManifestConfig): string
  {
    ManifestFile(c.format)
  }

  /** The file createProtomokFiles writes as written: both branches of its
      format test pick the YAML file. */
  function ManifestTargetAsWritten(c: ManifestConfig): (f: string)
    ensures f == DeploymentManifestYaml
  {
    if c.format == ConfigJson then DeploymentManifestYaml else DeploymentManifestYaml
  }

  /** All three steps of createProtomokFiles succeed when it writes the manifest
      to `target`: the root directory is new and its parent exists, the functions
      directory is new and its parent exists once the root is made, the manifest
      marshals, and `target` can be created once both directories are made. */
  ghost predicate CanCreate(c: ManifestConfig, fs: FsState, codec: ManifestCodec, target: string)
  {
    var withRoot := fs.(dirs := fs.dirs + {Resolve(fs, c.rootDir)});
    var withFunctions := withRoot.(dirs := withRoot.dirs + {Resolve(fs, FunctionsDir)});
    && Stat(fs, c.rootDir) == Missing && ParentExists(fs, c.rootDir)
    && Stat(withRoot, FunctionsDir) == Missing && ParentExists(withRoot, FunctionsDir)
    && Marshal(c, codec).Ok?
    && Creatable(withFunctions, target)
    && !(fs.full && Marshal(c, codec).value != [])
  }

  /** The disk after a successful createProtomokFiles that wrote `target`. */
  ghost function Created(c: ManifestConfig, fs: FsState, codec: ManifestCodec, target: string): FsState
    requires CanCreate(c, fs, codec, target)
  {
    fs.(dirs := fs.dirs + {Resolve(fs, c.rootDir), Resolve(fs, FunctionsDir)},
        files := fs.files[Resolve(fs, target) := Marshal(c, codec).value])
  }

  /** What a failed createProtomokFiles may leave behind: at most the two
      directories it makes and the manifest file `target` (truncated), nothing else. */
  ghost predicate CreationFailedFrame(c: ManifestConfig, fs: FsState, fs': FsState, target: string)
  {
    && fs'.dirs <= fs.dirs + {Resolve(fs, c.rootDir), Resolve(fs, FunctionsDir)}
    && fs'.open == fs.open && fs'.cwd == fs.cwd
    && forall q :: q != Resolve(fs, target) ==>
         (q in fs'.files <==> q in fs.files) && (q in fs.files ==> fs'.files[q] == fs.files[q])
  }

  /** The steps of createProtomokFiles with the manifest written to `target`:
      mkdir rootDir, mkdir protomok/functions, marshal, write the manifest; the
      first failing step ends it with its error. */
  method WriteProjectFiles(c: ManifestConfig, fs: FsState, codec: ManifestCodec, target: string)
    returns (fs': FsState, r: Result<string, Error>)
    ensures r.Ok? <==> CanCreate(c, fs, codec, target)
    ensures r.Ok? ==> r.value == c.rootDir && fs' == Created(c, fs, codec, target)
    ensures !(Stat(fs, c.rootDir) == Missing && ParentExists(fs, c.rootDir)) ==> fs' == fs
    ensures r.Err? ==> CreationFailedFrame(c, fs, fs', target)
  {
    var m1 := Mkdir(fs, c.rootDir);
    if m1.err.Some? {
      return fs, Err(m1.err.value);
    }
    var withRoot := fs.(dirs := fs.dirs + {Resolve(fs, c.rootDir)});
    assert m1.fs == withRoot;
    var m2 := Mkdir(m1.fs, FunctionsDir);
    if m2.err.Some? {
      return m1.fs, Err(m2.err.value);
    }
    assert m2.fs == withRoot.(dirs := withRoot.dirs + {Resolve(fs, FunctionsDir)});
    var data := Marshal(c, codec);
    if data.Err? {
      return m2.fs, Err(data.error);
    }
    assert Resolve(m2.fs, target) == Resolve(fs, target);
    var w := WriteFile(m2.fs, target, data.value);
    if w.err.Some? {
      return w.fs, Err(w.err.value);
    }
    return w.fs, Ok(c.rootDir);
  }

  /** createProtomokFiles as evidently intended: the manifest goes to the file
      of its own format. */
  method CreateProtomokFiles(c: ManifestConfig, fs: FsState, codec: ManifestCodec)
    returns (fs': FsState, r: Result<string, Error>)
    ensures r.Ok? <==> CanCreate(c, fs, codec, ManifestTarget(c))
    ensures r.Ok? ==> r.value == c.rootDir && fs' == Created(c, fs, codec, ManifestTarget(c))
    ensures !(Stat(fs, c.rootDir) == Missing && ParentExists(fs, c.rootDir)) ==> fs' == fs
    ensures r.Err? ==> CreationFailedFrame(c, fs, fs', ManifestTarget(c))
  {
    fs', r := WriteProjectFiles(c, fs, codec, ManifestTarget(c));
  }

  /** createProtomokFiles as written: the manifest goes to the YAML file
      whatever the format. */
  method CreateProtomokFilesAsWritten(c: ManifestConfig, fs: FsState, codec: ManifestCodec)
    returns (fs': FsState, r: Result<string, Error>)
    ensures r.Ok? <==> CanCreate(c, fs, codec, ManifestTargetAsWritten(c))
    ensures r.Ok? ==> r.value == c.rootDir && fs' == Created(c, fs, codec, ManifestTargetAsWritten(c))
    ensures !(Stat(fs, c.rootDir) == Missing && ParentExists(fs, c.rootDir)) ==> fs' == fs
    ensures r.Err? ==> CreationFailedFrame(c, fs, fs', ManifestTargetAsWritten(c))
  {
    fs', r := WriteProjectFiles(c, fs, codec, ManifestTargetAsWritten(c));
  }

  /** The checks InitializeProject makes before creating anything: the working
      directory must be known and `cwd/protomok` must not exist in any form (nor
      fail to be examined); the manifest then gets rootDir `cwd/protomok`. */
  method ProjectRoot(c: ManifestConfig, fs: FsState) returns (r: Result<ManifestConfig, Error>)
    ensures fs.getwdFails ==> r == Err(IoFailure("."))
    ensures !fs.getwdFails && Stat(fs, PathJoin(fs.cwd, ProtomokDir)) != Missing ==> r == Err(AlreadyExists)
    ensures !fs.getwdFails && Stat(fs, PathJoin(fs.cwd, ProtomokDir)) == Missing ==>
      r == Ok(c.(rootDir := PathJoin(fs.cwd, ProtomokDir)))
  {
    var dir := Getwd(fs);
    if dir.Err? {
      return Err(dir.error);
    }
    var alreadyExists := true;
    if Stat(fs, PathJoin(dir.value, ProtomokDir)) == Missing {
      alreadyExists := false;
    }
    if alreadyExists {
      return Err(AlreadyExists);
    }
    return Ok(c.(rootDir := PathJoin(dir.value, ProtomokDir)));
  }

  /** InitializeProject with createProtomokFiles as evidently intended: refuses
      when ProjectRoot does, otherwise sets rootDir to `cwd/protomok` and creates
      the project files with the manifest of the project's own format. */
  method InitializeProject(c: ManifestConfig, fs: FsState, codec: ManifestCodec)
    returns (c': ManifestConfig, fs': FsState, r: Result<string, Error>)
    ensures fs.getwdFails ==> c' == c && fs' == fs && r == Err(IoFailure("."))
    ensures !fs.getwdFails && Stat(fs, PathJoin(fs.cwd, ProtomokDir)) != Missing ==>
      c' == c && fs' == fs && r == Err(AlreadyExists)
    ensures !fs.getwdFails && Stat(fs, PathJoin(fs.cwd, ProtomokDir)) == Missing ==>
      && c' == c.(rootDir := PathJoin(fs.cwd, ProtomokDir))
      && (r.Ok? <==> CanCreate(c', fs, codec, ManifestTarget(c')))
      && (r.Ok? ==> r.value == c'.rootDir && fs' == Created(c', fs, codec, ManifestTarget(c')))
      && (!ParentExists(fs, c'.rootDir) ==> fs' == fs)
      && (r.Err? ==> CreationFailedFrame(c', fs, fs', ManifestTarget(c')))
  {
    var root := ProjectRoot(c, fs);
    if root.Err? {
      return c, fs, Err(root.error);
    }
    c' := root.value;
    fs', r := CreateProtomokFiles(c', fs, codec);
  }

  /** InitializeProject as written: the same checks, then createProtomokFiles as
      written, so the manifest goes to `protomok/pmok.yaml` whatever the format. */
  method InitializeProjectAsWritten(c: ManifestConfig, fs: FsState, codec: ManifestCodec)
    returns (c': ManifestConfig, fs': FsState, r: Result<string, Error>)
    ensures fs.getwdFails ==> c' == c && fs' == fs && r == Err(IoFailure("."))
    ensures !fs.getwdFails && Stat(fs, PathJoin(fs.cwd, ProtomokDir)) != Missing ==>
      c' == c && fs' == fs && r == Err(AlreadyExists)
    ensures !fs.getwdFails && Stat(fs, PathJoin(fs.cwd, ProtomokDir)) == Missing ==>
      && c' == c.(rootDir := PathJoin(fs.cwd, ProtomokDir))
      && (r.Ok? <==> CanCreate(c', fs, codec, ManifestTargetAsWritten(c')))
      && (r.Ok? ==> r.value == c'.rootDir && fs' == Created(c', fs, codec, ManifestTargetAsWritten(c')))
      && (!ParentExists(fs, c'.rootDir) ==> fs' == fs)
      && (r.Err? ==> CreationFailedFrame(c', fs, fs', ManifestTargetAsWritten(c')))
  {
    var root := ProjectRoot(c, fs);
    if root.Err? {
      return c, fs, Err(root.error);
    }
    c' := root.value;
    fs', r := CreateProtomokFilesAsWritten(c', fs, codec);
  }

  /** After a successful CreateProtomokFilesAsWritten a JSON project has a YAML
      manifest and no `protomok/pmok.json`, so the format detection of a later
      load reports YAML; after a successful CreateProtomokFiles the JSON
      manifest is there for detection to find. */
  lemma JsonProjectWrittenAsYaml(c: ManifestConfig, fs: FsState, codec: ManifestCodec)
    requires c.format == ConfigJson
    requires fs.cwd != "" && fs.cwd[0] == '/' && c.rootDir == PathJoin(fs.cwd, ProtomokDir)
    requires var json := PathJoin(fs.cwd, DeploymentManifestJson);
      json !in fs.files && json !in fs.dirs && json !in fs.faults
    requires CanCreate(c, fs, codec, ManifestTargetAsWritten(c))
    ensures ManifestTargetAsWritten(c) == DeploymentManifestYaml != ManifestTarget(c)
    ensures Stat(Created(c, fs, codec, ManifestTargetAsWritten(c)), PathJoin(fs.cwd, DeploymentManifestJson)) == Missing
    ensures CanCreate(c, fs, codec, ManifestTarget(c)) ==>
      Stat(Created(c, fs, codec, ManifestTarget(c)), PathJoin(fs.cwd, DeploymentManifestJson)) == IsFile
  {
    ProjectPathsDistinct(fs);
    var json := PathJoin(fs.cwd, DeploymentManifestJson);
    var written := Created(c, fs, codec, ManifestTargetAsWritten(c));
    assert json !in written.dirs && json !in written.files && json !in written.faults;
  }

  /** Under an absolute working directory, `protomok/pmok.json` is none of the
      other paths project creation touches. */
  lemma ProjectPathsDistinct(fs: FsState)
    requires fs.cwd != "" && fs.cwd[0] == '/'
    ensures var json := PathJoin(fs.cwd, DeploymentManifestJson);
      && Resolve(fs, DeploymentManifestJson) == json
      && json != Resolve(fs, DeploymentManifestYaml)
      && json != Resolve(fs, FunctionsDir)
      && json != Resolve(fs, PathJoin(fs.cwd, ProtomokDir))
  {
    var loc := fs.cwd;
    var json := PathJoin(loc, DeploymentManifestJson);
    var yaml := PathJoin(loc, DeploymentManifestYaml);
    var functions := PathJoin(loc, FunctionsDir);
    var root := PathJoin(loc, ProtomokDir);
    assert DeploymentManifestJson[..1] == "p" && DeploymentManifestYaml[..1] == "p" && FunctionsDir[..1] == "p";
    assert root[..1] == "/";
    assert json[|json| - 4..] == "json" && yaml[|yaml| - 4..] == "yaml";
    assert functions[|functions| - 4..] == "ions";
    assert |json| > |root|;
  }

  /** After InitializeProject the returned manifest's rootDir is `cwd/protomok`,
      while the walk that loading uses finds `cwd` itself; ConfigPath on the
      returned manifest therefore names a file under `cwd/protomok/protomok`,
      not the manifest that was written. */
  lemma InitializedRootDirIsOneLevelDeeper(c: ManifestConfig, fs: FsState, codec: ManifestCodec)
    requires !fs.getwdFails && fs.cwd != "" && fs.cwd[0] == '/' && (fs.cwd == "/" || fs.cwd[|fs.cwd| - 1] != '/')
    requires var c' := c.(rootDir := PathJoin(fs.cwd, ProtomokDir)); CanCreate(c', fs, codec, ManifestTarget(c'))
    ensures var c' := c.(rootDir := PathJoin(fs.cwd, ProtomokDir));
      && ProjectDirOf(Created(c', fs, codec, ManifestTarget(c')), fs.cwd) == Ok(fs.cwd)
      && c'.rootDir != fs.cwd
      && ConfigPath(c') == PathJoin(PathJoin(c'.rootDir, ProtomokDir), if c.format == ConfigYaml then "pmok.yaml" else "pmok.json")
  {
    var cwd := fs.cwd;
    var c' := c.(rootDir := PathJoin(cwd, ProtomokDir));
    CreatedProjectFoundAtCwd(c', fs, codec);
    var root := c'.rootDir;
    assert |root| > |cwd|;
    assert root[|root| - 1] == 'k';
    ConfigPathNested(c');
  }

  /** The walk that loading uses finds the freshly created `cwd/protomok` from `cwd`. */
  lemma CreatedProjectFoundAtCwd(c: ManifestConfig, fs: FsState, codec: ManifestCodec)
    requires fs.cwd != "" && fs.cwd[0] == '/' && (fs.cwd == "/" || fs.cwd[|fs.cwd| - 1] != '/')
    requires c.rootDir == PathJoin(fs.cwd, ProtomokDir) && CanCreate(c, fs, codec, ManifestTarget(c))
    ensures ProjectDirOf(Created(c, fs, codec, ManifestTarget(c)), fs.cwd) == Ok(fs.cwd)
  {
    var root := c.rootDir;
    assert root[0] == '/';
    assert Resolve(fs, root) == root;
    assert root !in fs.faults;
    var after := Created(c, fs, codec, ManifestTarget(c));
    assert after.dirs == fs.dirs + {root, Resolve(fs, FunctionsDir)} && after.faults == fs.faults;
    assert Resolve(after, root) == root;
    assert Stat(after, root) == IsDirectory;
    FoundWhereProtomokIs(after, fs.cwd);
  }

  /** A directory that holds `protomok` is where the walk stops. */
  lemma FoundWhereProtomokIs(fs: FsState, d: string)
    requires d != "" && (d == "/" || d[|d| - 1] != '/')
    requires HasProtomok(fs, d)
    ensures ProjectDirOf(fs, d) == Ok(d)
  {
    DirOfJoin(d, ProtomokDir);
  }

  /** ConfigPath adds `protomok` and the manifest file to rootDir. */
  lemma ConfigPathNested(c: ManifestConfig)
    requires c.rootDir != "" && c.rootDir[|c.rootDir| - 1] != '/'
    ensures ConfigPath(c) == PathJoin(PathJoin(c.rootDir, ProtomokDir), if c.format == ConfigYaml then "pmok.yaml" else "pmok.json")
  {
    assert ProtomokDir + "/" + "pmok.yaml" == DeploymentManifestYaml;
    assert ProtomokDir + "/" + "pmok.json" == DeploymentManifestJson;
    NestedJoin(c.rootDir, "pmok.yaml");
    NestedJoin(c.rootDir, "pmok.json");
  }

  lemma NestedJoin(root: string, name: string)
    requires root != "" && root[|root| - 1] != '/' && name != ""
    ensures PathJoin(root, ProtomokDir + "/" + name) == PathJoin(PathJoin(root, ProtomokDir), name)
  {
    assert PathJoin(root, ProtomokDir)[|PathJoin(root, ProtomokDir)| - 1] == 'k';
  }
}
