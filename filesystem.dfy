/** An abstract filesystem: a set of directory paths and a map from file path to
    contents, with the three operations the scripts use — os.path.exists,
    os.makedirs and shutil.copy — written as functions from state to state. */
module FileSystem {
  import opened Wrappers
  import opened Paths

  type Data = seq<bv8>

  datatype Fs = Fs(dirs: set<Path>, files: map<Path, Data>)

  /** Every path the filesystem has, directory or file. */
  function Entries(fs: Fs): set<Path> { fs.dirs + fs.files.Keys }

  /** os.path.exists: the path is one of the filesystem's entries. */
  predicate Exists(fs: Fs, p: Path)
  {
    p in fs.dirs || p in fs.files
  }

  /** No path is both a directory and a file. */
  predicate Valid(fs: Fs) { fs.dirs !! fs.files.Keys }

  /** The exceptions the modelled code can raise. */
  datatype IoError =
    | FileNotFound(path: Path)
    | FileExists(path: Path)
    | NotADirectory(path: Path)
    | IsADirectory(path: Path)
    | SameFile(path: Path)
    | DirNotEmpty(path: Path)
    | IndexError

  /** The state a run of steps leaves behind, and the exception that stopped it, if any. */
  datatype Run = Run(fs: Fs, error: Option<IoError>)

  /** os.makedirs(join(parent, name)) where parent already exists, the only way the
      scripts call it: fails if parent is not a directory or the path is taken. */
  function MakeDirIn(fs: Fs, parent: Path, name: string): (r: Result<Fs, IoError>)
    ensures r.Ok? <==> parent in fs.dirs && !Exists(fs, Join(parent, name))
    ensures r.Ok? ==> r.value.files == fs.files && r.value.dirs == fs.dirs + {Join(parent, name)}
    ensures Valid(fs) && r.Ok? ==> Valid(r.value)
  {
    var p := Join(parent, name);
    if Exists(fs, p) then Err(FileExists(p))
    else if parent !in fs.dirs then Err(if parent in fs.files then NotADirectory(p) else FileNotFound(p))
    else Ok(fs.(dirs := fs.dirs + {p}))
  }

  /** `if not os.path.exists(p): os.makedirs(p)` for p = join(parent, name). */
  function EnsureDirIn(fs: Fs, parent: Path, name: string): (r: Result<Fs, IoError>)
    ensures Exists(fs, Join(parent, name)) ==> r == Ok(fs)
    ensures r.Err? <==> !Exists(fs, Join(parent, name)) && parent !in fs.dirs
    ensures r.Ok? ==> Exists(r.value, Join(parent, name))
    ensures r.Ok? ==> r.value.files == fs.files
    ensures r.Ok? ==> fs.dirs <= r.value.dirs <= fs.dirs + {Join(parent, name)}
    ensures Valid(fs) && r.Ok? ==> Valid(r.value)
  {
    if Exists(fs, Join(parent, name)) then Ok(fs) else MakeDirIn(fs, parent, name)
  }

  /** Nothing lies below p. */
  predicate EmptyDir(fs: Fs, p: Path)
  {
    forall q :: q in Entries(fs) && q != p ==> !Under(q, p)
  }

  /** os.rmdir(p): removes an empty directory; a missing path, a file and a
      directory with entries below it all fail. */
  function RemoveDir(fs: Fs, p: Path): (r: Result<Fs, IoError>)
    ensures r.Ok? <==> p in fs.dirs && EmptyDir(fs, p)
    ensures r.Ok? ==> r.value.files == fs.files && r.value.dirs == fs.dirs - {p}
    ensures Valid(fs) && r.Ok? ==> Valid(r.value)
  {
    if p in fs.dirs then
      if EmptyDir(fs, p) then Ok(fs.(dirs := fs.dirs - {p})) else Err(DirNotEmpty(p))
    else if p in fs.files then Err(NotADirectory(p))
    else Err(FileNotFound(p))
  }

  /** Removing a directory just made, with nothing below it, undoes the making. */
  lemma RemoveUndoesMake(fs: Fs, parent: Path, name: string)
    requires MakeDirIn(fs, parent, name).Ok?
    requires EmptyDir(fs, Join(parent, name))
    ensures RemoveDir(MakeDirIn(fs, parent, name).value, Join(parent, name)) == Ok(fs)
  {
    var p := Join(parent, name);
    assert fs.dirs + {p} - {p} == fs.dirs;
  }

  /** Where shutil.copy(src, join(dir, name)) writes: into that path, or, when it is
      a directory, to the source's basename inside it. */
  function CopyTarget(fs: Fs, src: Path, dir: Path, name: string): (r: Path)
    ensures Join(dir, name) !in fs.dirs ==> r == Join(dir, name)
    ensures Join(dir, name) in fs.dirs ==> Under(r, Join(dir, name)) && Basename(r) == Basename(src)
    ensures Join(dir, name) in fs.dirs && Basename(src) != "" ==> ChildName(Join(dir, name), r) == Some(Basename(src))
  {
    var dst := Join(dir, name);
    if dst in fs.dirs then
      BasenameOfJoin(dst, Basename(src));
      JoinIsUnder(dst, Basename(src));
      assert Basename(src) != "" ==> ChildName(dst, Join(dst, Basename(src))) == Some(Basename(src)) by {
        if Basename(src) != "" {
          ChildNameOfJoin(dst, Basename(src));
        }
      }
      Join(dst, Basename(src))
    else dst
  }

  /** The directory the copy lands in, which must exist as a directory. */
  function CopyTargetDir(fs: Fs, dir: Path, name: string): Path
  {
    var dst := Join(dir, name);
    if dst in fs.dirs then dst else dir
  }

  /** shutil.copy(src, join(dir, name)), contents only: the target receives the
      source's bytes; SameFileError, a missing or directory source, a directory
      target and a parent that is not a directory all fail before anything changes. */
  function Copy(fs: Fs, src: Path, dir: Path, name: string): (r: Result<Fs, IoError>)
    ensures r.Ok? <==>
              && src in fs.files
              && CopyTarget(fs, src, dir, name) != src
              && CopyTarget(fs, src, dir, name) !in fs.dirs
              && CopyTargetDir(fs, dir, name) in fs.dirs
    ensures r.Ok? ==> r.value.dirs == fs.dirs
    ensures r.Ok? ==> r.value.files == fs.files[CopyTarget(fs, src, dir, name) := fs.files[src]]
    ensures Valid(fs) && r.Ok? ==> Valid(r.value)
  {
    var target := CopyTarget(fs, src, dir, name);
    if target == src && Exists(fs, src) then Err(SameFile(src))
    else if src !in fs.files then Err(if src in fs.dirs then IsADirectory(src) else FileNotFound(src))
    else if target in fs.dirs then Err(IsADirectory(target))
    else if CopyTargetDir(fs, dir, name) !in fs.dirs then
      Err(if CopyTargetDir(fs, dir, name) in fs.files then NotADirectory(target) else FileNotFound(target))
    else Ok(fs.(files := fs.files[target := fs.files[src]]))
  }

  /** A copy that succeeds changes no file but its target. */
  lemma CopyChangesOnlyTarget(fs: Fs, src: Path, dir: Path, name: string, p: Path)
    requires Copy(fs, src, dir, name).Ok?
    requires p != CopyTarget(fs, src, dir, name)
    ensures var fs' := Copy(fs, src, dir, name).value;
            (p in fs'.files <==> p in fs.files) && (p in fs.files ==> fs'.files[p] == fs.files[p])
  {
  }
}
