/** The operating system as the core sees it: the `FileSystem` interface of
    internal/config/fs.go (Stat, Getwd, Mkdir, WriteFile, Open) and the direct
    `os` calls of the other files (Create, OpenFile, Write, Close). The disk is a
    value: directories, a map from path to content, and the open descriptors.
    Faults the environment can inject (a path the OS refuses, a full disk, a
    failing Getwd) are part of the state, as the tests' MockFileSystem does. */
module Fs {
  import opened Wrappers
  import opened Errors
  import Text

  newtype byte = b: int | 0 <= b < 256
  type Bytes = seq<byte>

  datatype FsState = FsState(
    cwd: string,              // the process's working directory, absolute
    getwdFails: bool,         // os.Getwd reports an error
    dirs: set<string>,        // existing directories, by absolute path
    files: map<string, Bytes>,// existing regular files and their content
    faults: set<string>,      // paths on which every operation fails (permissions, I/O errors)
    full: bool,               // the disk refuses any non-empty write
    open: map<nat, string>)   // open descriptors and the file each refers to

  // ---------------------------------------------------------------- paths

  /** filepath.Join / path.Join for the operands the core passes: an empty operand
      is dropped, and exactly one separator is placed between the two. */
  function PathJoin(a: string, b: string): string
  {
    if a == "" then b
    else if b == "" then a
    else if a[|a| - 1] == '/' then a + b
    else a + "/" + b
  }

  /** The index of the last '/' in `p`, or -1. */
  function LastSlash(p: string): (r: int)
    ensures -1 <= r < |p|
    ensures 0 <= r ==> p[r] == '/'
    ensures forall j :: r < j < |p| ==> p[j] != '/'
  {
    if p == [] then -1
    else if p[|p| - 1] == '/' then |p| - 1
    else LastSlash(p[..|p| - 1])
  }

  /** path.Dir / filepath.Dir for cleaned paths: everything before the last
      separator; "/" for a top-level entry and "." when there is no separator. */
  function Dir(p: string): string
  {
    var i := LastSlash(p);
    if i < 0 then "." else if i == 0 then "/" else p[..i]
  }

  /** Strictly decreases along a chain of `Dir` until it reaches "/" or ".". */
  function Height(p: string): nat
  {
    if p == "." || p == "/" then 0 else |p| + 1
  }

  /** `Dir` reaches a fixed point exactly at the two roots, and otherwise moves
      strictly closer to one; this is why the upward walk terminates. */
  lemma DirProgress(p: string)
    ensures Dir(p) == p <==> p == "." || p == "/"
    ensures Dir(p) != p ==> Height(Dir(p)) < Height(p)
  {
    var i := LastSlash(p);
    if p == "/" {
      assert LastSlash(p) == 0;
    } else if p == "." {
      assert LastSlash(p) == LastSlash([]);
    } else if 0 < i {
      assert |Dir(p)| < |p|;
    }
  }

  /** Joining one separator-free name onto a directory and taking `Dir` gives the
      directory back. */
  lemma DirOfJoin(d: string, name: string)
    requires d != "" && name != "" && '/' !in name
    requires d == "/" || d[|d| - 1] != '/'
    ensures Dir(PathJoin(d, name)) == d
  {
    var p := PathJoin(d, name);
    var k := if d == "/" then 0 else |d|;
    assert p[k] == '/';
    forall j | k < j < |p| ensures p[j] != '/' {
      assert p[j] == name[j - k - 1];
      assert name[j - k - 1] in name;
    }
    LastSlashIs(p, k);
  }

  lemma {:induction false} LastSlashIs(p: string, k: nat)
    requires k < |p| && p[k] == '/'
    requires forall j :: k < j < |p| ==> p[j] != '/'
    ensures LastSlash(p) == k
  {
    if k < |p| - 1 {
      LastSlashIs(p[..|p| - 1], k);
    }
  }

  /** A relative path names an entry under the working directory. */
  function Resolve(fs: FsState, p: string): string
  {
    if Text.HasPrefix(p, "/") then p else PathJoin(fs.cwd, p)
  }

  // ---------------------------------------------------------------- queries

  datatype StatResult = Missing | IsDirectory | IsFile | StatFailed

  /** os.Stat: `Missing` is the case where `errors.Is(err, os.ErrNotExist)`;
      `StatFailed` is any other error. */
  function Stat(fs: FsState, p: string): StatResult
  {
    var q := Resolve(fs, p);
    if q in fs.faults then StatFailed
    else if q in fs.dirs then IsDirectory
    else if q in fs.files then IsFile
    else Missing
  }

  function Getwd(fs: FsState): Result<string, Error>
  {
    if fs.getwdFails then Err(IoFailure(".")) else Ok(fs.cwd)
  }

  /** os.Open followed by reading the whole file. */
  function ReadFile(fs: FsState, p: string): (r: Result<Bytes, Error>)
    ensures r.Ok? <==> Stat(fs, p) == IsFile
    ensures r.Ok? ==> r.value == fs.files[Resolve(fs, p)]
  {
    var q := Resolve(fs, p);
    if q in fs.faults || q in fs.dirs then Err(IoFailure(q))
    else if q !in fs.files then Err(NotExist(q))
    else Ok(fs.files[q])
  }

  // ---------------------------------------------------------------- effects

  /** The new disk and the error, if any, of one operation. */
  datatype Effect = Effect(fs: FsState, err: Option<Error>)

  /** The directory that would hold `p` exists. Without it os.Mkdir and os.Create
      fail (ENOENT, or ENOTDIR when a file stands in its place). */
  predicate ParentExists(fs: FsState, p: string)
  {
    Dir(Resolve(fs, p)) in fs.dirs
  }

  /** os.Create succeeds on `p`: an existing regular file is truncated, and a
      missing one is created when its directory exists. */
  predicate Creatable(fs: FsState, p: string)
  {
    Stat(fs, p) == IsFile || (Stat(fs, p) == Missing && ParentExists(fs, p))
  }

  /** os.Mkdir: fails when anything already exists at the path, and when the
      directory that would hold it does not. */
  function Mkdir(fs: FsState, p: string): (e: Effect)
    ensures e.err.None? <==> Stat(fs, p) == Missing && ParentExists(fs, p)
    ensures Stat(fs, p) == Missing && !ParentExists(fs, p) ==> e.err == Some(NotExist(Resolve(fs, p)))
    ensures e.err.None? ==> e.fs == fs.(dirs := fs.dirs + {Resolve(fs, p)})
    ensures e.err.Some? ==> e.fs == fs
  {
    var q := Resolve(fs, p);
    if q in fs.faults then Effect(fs, Some(IoFailure(q)))
    else if q in fs.dirs || q in fs.files then Effect(fs, Some(Exist(q)))
    else if Dir(q) !in fs.dirs then Effect(fs, Some(NotExist(q)))
    else Effect(fs.(dirs := fs.dirs + {q}), None)
  }

  /** The descriptor an open call hands out, or the error. */
  datatype Opened = Opened(fs: FsState, fd: Result<nat, Error>)

  /** The lowest descriptor number at or above `n` that is not open, as POSIX
      open(2) hands out. */
  function LowestFree(open: map<nat, string>, n: nat): (fd: nat)
    ensures fd !in open && n <= fd
    decreases |open|
  {
    if n !in open then n
    else
      assert |open - {n}| < |open| by { assert open.Keys - {n} < open.Keys; }
      LowestFree(open - {n}, n + 1)
  }

  /** Truncates (or creates) the file at the resolved path and opens a descriptor on it. */
  function OpenTruncated(fs: FsState, q: string): (o: Opened)
    ensures o.fd.Ok? && o.fd.value !in fs.open
    ensures o.fs == fs.(files := fs.files[q := []], open := fs.open[o.fd.value := q])
  {
    var fd := LowestFree(fs.open, 0);
    Opened(fs.(files := fs.files[q := []], open := fs.open[fd := q]), Ok(fd))
  }

  /** os.Create: creates or truncates a regular file. */
  function Create(fs: FsState, p: string): (o: Opened)
    ensures o.fd.Ok? <==> Creatable(fs, p)
    ensures Stat(fs, p) == Missing && !ParentExists(fs, p) ==> o.fd == Err(NotExist(Resolve(fs, p)))
    ensures o.fd.Ok? ==> o == OpenTruncated(fs, Resolve(fs, p))
    ensures o.fd.Err? ==> o.fs == fs
  {
    var q := Resolve(fs, p);
    if q in fs.faults || q in fs.dirs then Opened(fs, Err(IoFailure(q)))
    else if q !in fs.files && Dir(q) !in fs.dirs then Opened(fs, Err(NotExist(q)))
    else OpenTruncated(fs, q)
  }

  /** os.OpenFile(p, O_WRONLY|O_TRUNC): like Create, but without O_CREATE the
      file must already exist. */
  function OpenExisting(fs: FsState, p: string): (o: Opened)
    ensures o.fd.Ok? <==> Stat(fs, p) == IsFile
    ensures o.fd.Ok? ==> o == OpenTruncated(fs, Resolve(fs, p))
    ensures o.fd.Err? ==> o.fs == fs
  {
    var q := Resolve(fs, p);
    if q in fs.faults || q in fs.dirs then Opened(fs, Err(IoFailure(q)))
    else if q !in fs.files then Opened(fs, Err(NotExist(q)))
    else OpenTruncated(fs, q)
  }

  /** File.Write: appends to the file behind an open descriptor. */
  function Write(fs: FsState, fd: nat, data: Bytes): (e: Effect)
    ensures e.err.None? <==> fd in fs.open && !(fs.full && data != [])
    ensures e.err.None? ==> e.fs.files == fs.files[fs.open[fd] := Content(fs, fs.open[fd]) + data]
    ensures e.err.Some? ==> e.fs == fs
    ensures e.fs.open == fs.open && e.fs.dirs == fs.dirs
  {
    if fd !in fs.open then Effect(fs, Some(Closed))
    else if fs.full && data != [] then Effect(fs, Some(IoFailure(fs.open[fd])))
    else Effect(fs.(files := fs.files[fs.open[fd] := Content(fs, fs.open[fd]) + data]), None)
  }

  /** The content of a file, empty when there is none. */
  function Content(fs: FsState, q: string): Bytes
  {
    if q in fs.files then fs.files[q] else []
  }

  /** File.Close: releases the descriptor; closing twice fails. */
  function Close(fs: FsState, fd: nat): (e: Effect)
    ensures e.err.None? <==> fd in fs.open
    ensures e.fs == fs.(open := fs.open - {fd})
  {
    if fd !in fs.open then Effect(fs, Some(Closed)) else Effect(fs.(open := fs.open - {fd}), None)
  }

  /** os.WriteFile: create or truncate, write, close. */
  function WriteFile(fs: FsState, p: string, data: Bytes): (e: Effect)
    ensures e.err.None? <==> Creatable(fs, p) && !(fs.full && data != [])
    ensures e.err.None? ==> e.fs == fs.(files := fs.files[Resolve(fs, p) := data])
    ensures e.err.Some? ==> e.fs == fs || e.fs == fs.(files := fs.files[Resolve(fs, p) := []])
  {
    var o := Create(fs, p);
    if o.fd.Err? then Effect(o.fs, Some(o.fd.error))
    else
      var w := Write(o.fs, o.fd.value, data);
      var c := Close(w.fs, o.fd.value);
      assert o.fs.open - {o.fd.value} == fs.open;
      assert Content(o.fs, Resolve(fs, p)) + data == data;
      Effect(c.fs, if w.err.Some? then w.err else c.err)
  }
}
