/** OscilloscopeDataCopier from helper.py: the File, CSVFile and JPGFile helpers
    that name a sample file and save it, the copier that finds the E<N>P<M>
    folders on the drive, and copy_scope_data, which plans where every file of
    every folder goes and copies it there. */
module ScopeCopier {
  import opened Wrappers
  import opened Strings
  import opened Paths
  import opened FileSystem
  import opened Glob

  /** Where macOS mounts removable drives. */
  const VolumesRoot: Path := "/Volumes"
  /** The folders the user renamed to E<N>P<M>. */
  const PartPattern: string := "E*P*"
  const JpgPattern: string := "*.JPG"
  const CsvPattern: string := "*.CSV"
  /** The folder under the destination that receives the screenshots. */
  const JpgFolder: string := "jpgs"
  /** A CSV keeps this many trailing characters of its name ("CH1.CSV"). */
  const ChannelSuffixLength: nat := 7

  /** OscilloscopeDataCopier.File: a file on disk and the name it will be saved under. */
  datatype File = File(location: Path, name: string)

  /** File.__init__: the location must exist; the name is the last path piece. */
  function NewFile(fs: Fs, location: Path): (r: Result<File, IoError>)
    ensures r.Err? <==> !Exists(fs, location)
    ensures r.Err? ==> r.error == FileNotFound(location)
    ensures r.Ok? ==> r.value.location == location
    ensures r.Ok? ==> var parts := Split(location, '/'); r.value.name == parts[|parts| - 1]
  {
    LastPieceIsBasename(location);
    if Exists(fs, location) then Ok(File(location, Basename(location)))
    else Err(FileNotFound(location))
  }

  /** The name CSVFile gives a file when renaming:
      lower(parent folder + "." + last seven characters of the file's name). */
  function RenamedCsv(parent: string, base: string): (r: string)
    requires IsComponent(parent) && IsComponent(base)
    ensures r == Lower(parent) + "." + Lower(TakeLast(base, ChannelSuffixLength))
    ensures |r| == |parent| + 1 + (if |base| < 7 then |base| else 7)
    ensures IsComponent(r)
    ensures forall i :: 0 <= i < |r| ==> !IsUpper(r[i])
  {
    var tail := TakeLast(base, ChannelSuffixLength);
    TailIsComponent(base);
    DottedLower(parent, tail);
    LowerHasNoUpper(parent + "." + tail);
    Lower(parent + "." + tail)
  }

  lemma TailIsComponent(base: string)
    requires IsComponent(base)
    ensures IsComponent(TakeLast(base, ChannelSuffixLength))
  {
    var tail := TakeLast(base, ChannelSuffixLength);
    assert base == base[..|base| - |tail|] + tail;
  }

  /** Lowering a name of the form a + "." + b lowers the two sides and keeps them
      free of '/'. */
  lemma DottedLower(a: string, b: string)
    requires IsComponent(a) && IsComponent(b)
    ensures Lower(a + "." + b) == Lower(a) + "." + Lower(b)
    ensures IsComponent(Lower(a + "." + b))
  {
    var d := "." + b;
    LowerConcat(a, d);
    LowerConcat(".", b);
    Assoc(a, ".", b);
    assert '/' !in d;
    assert '/' !in a + d;
    LowerKeepsNonLetter(a + d, '/');
  }

  /** CSVFile.__init__: the location must exist; with rename the name becomes
      RenamedCsv of its parent folder and its own name. */
  function NewCsvFile(fs: Fs, location: Path, rename: bool): (r: Result<File, IoError>)
    ensures !Exists(fs, location) ==> r == Err(FileNotFound(location))
    ensures Exists(fs, location) && rename && '/' !in location ==> r == Err(IndexError)
    ensures Exists(fs, location) && (!rename || '/' in location) ==> r.Ok?
    ensures r.Ok? ==> r.value.location == location && IsComponent(r.value.name)
    ensures r.Ok? && !rename ==> r.value.name == Basename(location)
    ensures r.Ok? && rename ==> r.value.name == RenamedCsv(ParentComponent(location).value, Basename(location))
  {
    match NewFile(fs, location)
    case Err(e) => Err(e)
    case Ok(f) =>
      if !rename then Ok(f)
      else match ParentComponent(location)
        case None => Err(IndexError)
        case Some(parent) => Ok(f.(name := RenamedCsv(parent, f.name)))
  }

  /** JPGFile.__init__: the name becomes lower(parent folder) + ".jpg". */
  function NewJpgFile(fs: Fs, location: Path): (r: Result<File, IoError>)
    ensures !Exists(fs, location) ==> r == Err(FileNotFound(location))
    ensures Exists(fs, location) && '/' !in location ==> r == Err(IndexError)
    ensures Exists(fs, location) && '/' in location ==> r.Ok?
    ensures r.Ok? ==> r.value.location == location && IsComponent(r.value.name)
    ensures r.Ok? ==> r.value.name == Lower(ParentComponent(location).value) + ".jpg"
    ensures r.Ok? ==> forall i :: 0 <= i < |r.value.name| ==> !IsUpper(r.value.name[i])
  {
    match NewFile(fs, location)
    case Err(e) => Err(e)
    case Ok(f) =>
      match ParentComponent(location)
      case None => Err(IndexError)
      case Some(parent) =>
        LowerKeepsNonLetter(parent, '/');
        LowerHasNoUpper(parent);
        Ok(f.(name := Lower(parent) + ".jpg"))
  }

  /** File.save: fails when the destination is missing; under softrun changes
      nothing; otherwise copies the file to join(destination, name). */
  function Save(fs: Fs, f: File, destination: Path, softrun: bool): (r: Result<Fs, IoError>)
    ensures !Exists(fs, destination) ==> r == Err(FileNotFound(destination))
    ensures Exists(fs, destination) && softrun ==> r == Ok(fs)
    ensures r.Ok? ==> r.value.dirs == fs.dirs && fs.files.Keys <= r.value.files.Keys
    ensures r.Ok? && !softrun ==>
              && f.location in fs.files
              && r.value.files == fs.files[CopyTarget(fs, f.location, destination, f.name) := fs.files[f.location]]
    ensures Valid(fs) && r.Ok? ==> Valid(r.value)
  {
    if !Exists(fs, destination) then Err(FileNotFound(destination))
    else if softrun then Ok(fs)
    else Copy(fs, f.location, destination, f.name)
  }

  /** The ordinary case of save: the destination is a directory and nothing sits at
      join(destination, name) but possibly an older file; exactly that entry
      changes, and it receives the source's contents. */
  lemma SaveCopiesToJoin(fs: Fs, f: File, destination: Path)
    requires destination in fs.dirs && f.location in fs.files
    requires Join(destination, f.name) !in fs.dirs && Join(destination, f.name) != f.location
    ensures Save(fs, f, destination, false) ==
              Ok(fs.(files := fs.files[Join(destination, f.name) := fs.files[f.location]]))
  {
  }

  /** A JPG's new name depends on the folder it sits in, not on its own name. */
  lemma JpgNameIgnoresBasename(fs: Fs, d: Path, n1: string, n2: string)
    requires d != "" && d[|d| - 1] != '/'
    requires IsComponent(n1) && IsComponent(n2)
    requires Exists(fs, Join(d, n1)) && Exists(fs, Join(d, n2))
    ensures NewJpgFile(fs, Join(d, n1)).Ok? && NewJpgFile(fs, Join(d, n2)).Ok?
    ensures NewJpgFile(fs, Join(d, n1)).value.name == NewJpgFile(fs, Join(d, n2)).value.name
            == Lower(Basename(d)) + ".jpg"
  {
    ParentComponentOfJoin(d, n1);
    ParentComponentOfJoin(d, n2);
  }

  /** A CSV inside folder d is renamed after d and the tail of its own name. */
  lemma CsvNameInFolder(fs: Fs, d: Path, n: string)
    requires d != "" && d[|d| - 1] != '/'
    requires IsComponent(n) && Exists(fs, Join(d, n))
    ensures NewCsvFile(fs, Join(d, n), true).Ok?
    ensures NewCsvFile(fs, Join(d, n), true).value.name ==
              Lower(Basename(d)) + "." + Lower(TakeLast(n, ChannelSuffixLength))
    ensures NewCsvFile(fs, Join(d, n), false).value.name == n
  {
    ParentComponentOfJoin(d, n);
    BasenameOfJoin(d, n);
  }

  /** OscilloscopeDataCopier: the drive's path and the E<N>P<M> folders found on it. */
  datatype Copier = Copier(driveLocation: Path, exerciseParts: seq<Path>)

  function DriveLocation(driveName: string): Path { Join(VolumesRoot, driveName) }

  /** OscilloscopeDataCopier.__init__: fails when the drive is not mounted; else
      lists, once each, exactly the entries of the drive whose names match E*P*. */
  method NewCopier(fs: Fs, driveName: string) returns (r: Result<Copier, IoError>)
    ensures r.Err? <==> !Exists(fs, DriveLocation(driveName))
    ensures r.Err? ==> r.error == FileNotFound(DriveLocation(driveName))
    ensures r.Ok? ==> r.value.driveLocation == DriveLocation(driveName)
    ensures r.Ok? ==> Distinct(r.value.exerciseParts)
    ensures r.Ok? ==> forall p :: p in r.value.exerciseParts <==> p in GlobSet(fs, DriveLocation(driveName), PartPattern)
  {
    var location := DriveLocation(driveName);
    if !Exists(fs, location) {
      return Err(FileNotFound(location));
    }
    var parts := GlobPaths(fs, location, PartPattern);
    r := Ok(Copier(location, parts));
  }

  /** Every folder the copier lists sits directly on the drive, under a name that
      starts with 'E' and has a 'P' after it. */
  lemma ExercisePartShape(fs: Fs, drive: Path, p: Path)
    requires p in GlobSet(fs, drive, PartPattern)
    ensures p == Join(drive, Basename(p))
    ensures var n := Basename(p); n[0] == 'E' && 'P' in n[1..]
    ensures p != "" && p[|p| - 1] != '/'
  {
    var n := ChildName(drive, p).value;
    assert Match(PartPattern, n);
    MatchPartPattern(n);
    BasenameOfJoin(drive, n);
    assert p == DirPrefix(drive) + n;
  }

  /** What copy_scope_data is asked to do, apart from verbosity. */
  datatype Options = Options(createFolders: bool, renameCsv: bool, saveJpg: bool, softrun: bool)

  /** copy_scope_data's defaults: no folder per part, renamed CSVs, JPGs saved, a real run. */
  const DefaultOptions: Options := Options(false, true, true, false)

  /** One action of copy_scope_data, as it announces it. The run of a list of steps
      is Replay; the planning properties are stated over the list. */
  datatype Step =
    | CheckDestination(dest: Path)
    | EnsureDir(parent: Path, name: string)
    | SaveJpg(part: Path, location: Path, dir: Path)
    | MissingJpg(part: Path)
    | SaveCsv(part: Path, location: Path, dir: Path)
    | CleanUp(dir: Path)

  function JpgDir(dest: Path): Path { Join(dest, JpgFolder) }

  /** Where the CSVs of a part go: a folder named after the part, or the destination itself. */
  function CsvDir(dest: Path, part: Path, createFolders: bool): Path
  {
    if createFolders then Join(dest, Basename(part)) else dest
  }

  function SaveOutcome(fs: Fs, file: Result<File, IoError>, dir: Path, softrun: bool): Run
  {
    match file
    case Err(e) => Run(fs, Some(e))
    case Ok(f) =>
      match Save(fs, f, dir, softrun)
      case Ok(fs') => Run(fs', None)
      case Err(e) => Run(fs, Some(e))
  }

  /** The effect of one step on the filesystem: a step that raises leaves the
      filesystem as it was, no step removes a file, and only the folder steps
      change the folders. */
  function Apply(fs: Fs, s: Step, opts: Options): (r: Run)
    ensures r.error.Some? ==> r.fs == fs
    ensures fs.files.Keys <= r.fs.files.Keys
    ensures !s.EnsureDir? && !s.CleanUp? ==> r.fs.dirs == fs.dirs
    ensures s.EnsureDir? && r.error.None? ==> Exists(r.fs, Join(s.parent, s.name))
    ensures s.CleanUp? && r.error.None? ==> r.fs.dirs == fs.dirs - {s.dir}
  {
    match s
    case CheckDestination(d) => if Exists(fs, d) then Run(fs, None) else Run(fs, Some(FileNotFound(d)))
    case EnsureDir(p, n) =>
      (match EnsureDirIn(fs, p, n)
       case Ok(fs') => Run(fs', None)
       case Err(e) => Run(fs, Some(e)))
    case SaveJpg(_, loc, dir) => SaveOutcome(fs, NewJpgFile(fs, loc), dir, opts.softrun)
    case MissingJpg(_) => Run(fs, Some(IndexError))
    case SaveCsv(_, loc, dir) => SaveOutcome(fs, NewCsvFile(fs, loc, opts.renameCsv), dir, opts.softrun)
    case CleanUp(dir) =>
      (match RemoveDir(fs, dir)
       case Ok(fs') => Run(fs', None)
       case Err(e) => Run(fs, Some(e)))
  }

  /** The steps applied in order, stopping at the first that raises; no run of
      steps removes a file. */
  function Replay(fs: Fs, log: seq<Step>, opts: Options): (r: Run)
    ensures fs.files.Keys <= r.fs.files.Keys
    decreases |log|
  {
    if log == [] then Run(fs, None)
    else
      var first := Apply(fs, log[0], opts);
      if first.error.Some? then first else Replay(first.fs, log[1..], opts)
  }

  /** Replaying one step more is applying it to where the replay stopped. */
  lemma {:induction false} ReplaySnoc(fs: Fs, log: seq<Step>, s: Step, opts: Options)
    decreases |log|
    ensures var prev := Replay(fs, log, opts);
            Replay(fs, log + [s], opts) == if prev.error.Some? then prev else Apply(prev.fs, s, opts)
  {
    if log == [] {
      assert [] + [s] == [s];
      assert [s][1..] == [];
    } else {
      var first := Apply(fs, log[0], opts);
      assert (log + [s])[0] == log[0];
      assert (log + [s])[1..] == log[1..] + [s];
      if first.error.None? {
        ReplaySnoc(first.fs, log[1..], s, opts);
      }
    }
  }

  /** Once a replay raises, the steps after it are never taken. */
  lemma {:induction false} ReplayStops(fs: Fs, log: seq<Step>, rest: seq<Step>, opts: Options)
    requires Replay(fs, log, opts).error.Some?
    ensures Replay(fs, log + rest, opts) == Replay(fs, log, opts)
    decreases |log|
  {
    assert log != [];
    var first := Apply(fs, log[0], opts);
    assert (log + rest)[0] == log[0];
    if first.error.None? {
      assert (log + rest)[1..] == log[1..] + rest;
      ReplayStops(first.fs, log[1..], rest, opts);
    }
  }

  /** A run that raises part-way through a longer log is the run of that log. */
  lemma ReplayPrefixStops(fs: Fs, log: seq<Step>, plan: seq<Step>, opts: Options)
    requires IsPrefix(log, plan) && Replay(fs, log, opts).error.Some?
    ensures Replay(fs, plan, opts) == Replay(fs, log, opts)
  {
    assert plan == log + plan[|log|..];
    ReplayStops(fs, log, plan[|log|..], opts);
  }

  /** The parts whose screenshot a log saves, in order. */
  function JpgParts(log: seq<Step>): seq<Path>
  {
    if log == [] then []
    else JpgParts(log[..|log| - 1]) + (if log[|log| - 1].SaveJpg? then [log[|log| - 1].part] else [])
  }

  lemma JpgPartsSnoc(log: seq<Step>, s: Step)
    ensures JpgParts(log + [s]) == JpgParts(log) + (if s.SaveJpg? then [s.part] else [])
  {
    assert (log + [s])[..|log|] == log;
  }

  /** A step copy_scope_data may take for this copier, destination and options:
      screenshots only when asked for, from a part's *.JPG into dest/jpgs; CSVs
      from a part's *.CSV into the part's folder or the destination; folders only
      these two kinds, directly under the destination, and removed again only
      under softrun. */
  predicate Planned(s: Step, c: Copier, dest: Path, opts: Options)
  {
    match s
    case CheckDestination(d) => d == dest
    case EnsureDir(p, n) =>
      p == dest && ((opts.saveJpg && n == JpgFolder) ||
                    (opts.createFolders && exists q :: q in c.exerciseParts && n == Basename(q)))
    case SaveJpg(part, loc, dir) =>
      opts.saveJpg && part in c.exerciseParts && dir == JpgDir(dest) && Listed(part, JpgPattern, loc)
    case MissingJpg(part) => opts.saveJpg && part in c.exerciseParts
    case SaveCsv(part, loc, dir) =>
      part in c.exerciseParts && dir == CsvDir(dest, part, opts.createFolders) && Listed(part, CsvPattern, loc)
    case CleanUp(dir) => opts.softrun && dir in PlannedDirs(c, dest, opts)
  }

  /** The folders copy_scope_data may create. */
  function PlannedDirs(c: Copier, dest: Path, opts: Options): set<Path>
  {
    (if opts.saveJpg then {JpgDir(dest)} else {}) +
    (if opts.createFolders then set q | q in c.exerciseParts :: Join(dest, Basename(q)) else {})
  }

  predicate AllPlanned(log: seq<Step>, c: Copier, dest: Path, opts: Options)
  {
    forall k {:trigger Planned(log[k], c, dest, opts)} :: 0 <= k < |log| ==> Planned(log[k], c, dest, opts)
  }

  /** f's content in fs' differs from fs: new or overwritten. */
  predicate Changed(fs: Fs, fs': Fs, p: Path)
    requires p in fs'.files
  {
    p !in fs.files || fs'.files[p] != fs.files[p]
  }

  /** The facts the copy loops keep about the run so far. */
  predicate Consistent(fs0: Fs, c: Copier, dest: Path, opts: Options, log: seq<Step>, cur: Fs)
  {
    && |log| >= 1 && log[0] == CheckDestination(dest)
    && Replay(fs0, log, opts) == Run(cur, None)
    && AllPlanned(log, c, dest, opts)
  }

  /** The run of a log that raised stopped at its last step: every step before it
      succeeded, so no step after the one that raised is in the log. */
  predicate StopsAtLast(fs0: Fs, log: seq<Step>, opts: Options)
  {
    |log| >= 1 && Replay(fs0, log[..|log| - 1], opts).error.None?
  }

  /** A saved file lands below the folder it is saved into. */
  lemma SaveTargetUnder(fs: Fs, f: File, dir: Path)
    requires IsComponent(f.name)
    ensures Under(CopyTarget(fs, f.location, dir, f.name), dir)
  {
    var dst := Join(dir, f.name);
    JoinIsUnder(dir, f.name);
    if dst in fs.dirs {
      var b := Basename(f.location);
      JoinIsUnder(dst, b);
      UnderTransitive(Join(dst, b), dst, dir);
    }
  }

  /** What copy_scope_data may do to a filesystem: create (and, under softrun,
      remove) planned folders only, remove no file, write files only below the
      destination, and under softrun write no file at all. */
  predicate Effect(fs: Fs, fs': Fs, c: Copier, dest: Path, opts: Options)
  {
    && fs.dirs - PlannedDirs(c, dest, opts) <= fs'.dirs <= fs.dirs + PlannedDirs(c, dest, opts)
    && (!opts.softrun ==> fs.dirs <= fs'.dirs)
    && fs.files.Keys <= fs'.files.Keys
    && (opts.softrun ==> fs'.files == fs.files)
    && (forall p :: p in fs'.files && Changed(fs, fs', p) ==> Under(p, dest))
  }

  lemma EffectCompose(fs0: Fs, fs1: Fs, fs2: Fs, c: Copier, dest: Path, opts: Options)
    requires Effect(fs0, fs1, c, dest, opts) && Effect(fs1, fs2, c, dest, opts)
    ensures Effect(fs0, fs2, c, dest, opts)
  {
    forall p | p in fs2.files && Changed(fs0, fs2, p) ensures Under(p, dest) {
      if !Changed(fs1, fs2, p) {
        assert p in fs1.files && Changed(fs0, fs1, p);
      }
    }
  }

  /** One save into dir, a folder at or below the destination, writes only below
      the destination. */
  lemma SaveEffect(fs: Fs, file: Result<File, IoError>, dir: Path, c: Copier, dest: Path, opts: Options)
    requires file.Ok? ==> IsComponent(file.value.name)
    requires dir == dest || Under(dir, dest)
    ensures Effect(fs, SaveOutcome(fs, file, dir, opts.softrun).fs, c, dest, opts)
    ensures Valid(fs) ==> Valid(SaveOutcome(fs, file, dir, opts.softrun).fs)
  {
    var fs' := SaveOutcome(fs, file, dir, opts.softrun).fs;
    if file.Ok? && !opts.softrun && Save(fs, file.value, dir, false).Ok? {
      var target := CopyTarget(fs, file.value.location, dir, file.value.name);
      SaveTargetUnder(fs, file.value, dir);
      if dir != dest {
        UnderTransitive(target, dir, dest);
      }
      forall p | p in fs'.files && Changed(fs, fs', p) ensures Under(p, dest) {
        assert p == target;
      }
    }
  }

  /** Applying one planned step has the allowed effect and keeps directories and
      files apart. */
  lemma ApplyPlanned(fs: Fs, s: Step, c: Copier, dest: Path, opts: Options)
    requires Planned(s, c, dest, opts)
    ensures Effect(fs, Apply(fs, s, opts).fs, c, dest, opts)
    ensures Valid(fs) ==> Valid(Apply(fs, s, opts).fs)
  {
    match s {
      case CheckDestination(_) =>
      case MissingJpg(_) =>
      case CleanUp(_) =>
      case EnsureDir(p, n) =>
        if !opts.saveJpg || n != JpgFolder {
          var q :| q in c.exerciseParts && n == Basename(q);
          assert Join(p, n) in PlannedDirs(c, dest, opts);
        }
        EnsureDirEffect(fs, n, c, dest, opts);
      case SaveJpg(_, loc, dir) =>
        JoinIsUnder(dest, JpgFolder);
        assert Apply(fs, s, opts) == SaveOutcome(fs, NewJpgFile(fs, loc), dir, opts.softrun);
        SaveEffect(fs, NewJpgFile(fs, loc), dir, c, dest, opts);
      case SaveCsv(part, loc, dir) =>
        if opts.createFolders {
          JoinIsUnder(dest, Basename(part));
        }
        assert Apply(fs, s, opts) == SaveOutcome(fs, NewCsvFile(fs, loc, opts.renameCsv), dir, opts.softrun);
        SaveEffect(fs, NewCsvFile(fs, loc, opts.renameCsv), dir, c, dest, opts);
    }
  }

  lemma EnsureDirEffect(fs: Fs, n: string, c: Copier, dest: Path, opts: Options)
    requires Join(dest, n) in PlannedDirs(c, dest, opts)
    ensures Effect(fs, Apply(fs, EnsureDir(dest, n), opts).fs, c, dest, opts)
    ensures Valid(fs) ==> Valid(Apply(fs, EnsureDir(dest, n), opts).fs)
  {
  }

  /** What any run of planned steps does to the filesystem: only the allowed
      effect, and directories and files stay apart. */
  lemma {:induction false} ReplayPlanned(fs: Fs, log: seq<Step>, c: Copier, dest: Path, opts: Options)
    decreases |log|
    requires AllPlanned(log, c, dest, opts)
    ensures Effect(fs, Replay(fs, log, opts).fs, c, dest, opts)
    ensures Valid(fs) ==> Valid(Replay(fs, log, opts).fs)
  {
    if log != [] {
      var rest := log[1..];
      assert AllPlanned(rest, c, dest, opts) by {
        forall k | 0 <= k < |rest| ensures Planned(rest[k], c, dest, opts) {
          assert rest[k] == log[k + 1];
        }
      }
      assert Planned(log[0], c, dest, opts);
      ApplyPlanned(fs, log[0], c, dest, opts);
      var first := Apply(fs, log[0], opts);
      if first.error.None? {
        ReplayPlanned(first.fs, rest, c, dest, opts);
        EffectCompose(fs, first.fs, Replay(fs, log, opts).fs, c, dest, opts);
      }
    }
  }

  /** a is a prefix of b. */
  predicate IsPrefix<T(==)>(a: seq<T>, b: seq<T>)
  {
    |a| <= |b| && b[..|a|] == a
  }

  lemma PrefixMembers<T>(a: seq<T>, b: seq<T>, x: T)
    requires IsPrefix(a, b) && x in a
    ensures x in b
  {
    var i :| 0 <= i < |a| && a[i] == x;
    assert b[i] == x;
  }

  lemma TakeOneMore<T>(s: seq<T>, i: nat)
    requires i < |s|
    ensures s[..i + 1] == s[..i] + [s[i]]
  {
  }

  lemma PrefixTransitive<T>(a: seq<T>, b: seq<T>, c: seq<T>)
    requires IsPrefix(a, b) && IsPrefix(b, c)
    ensures IsPrefix(a, c)
  {
    assert c[..|a|] == c[..|b|][..|a|];
  }

  /** Appending a planned step keeps a log consistent up to that step's outcome. */
  lemma ExtendLog(fs0: Fs, c: Copier, dest: Path, opts: Options, log: seq<Step>, cur: Fs, s: Step)
    requires Consistent(fs0, c, dest, opts, log, cur)
    requires Planned(s, c, dest, opts)
    ensures var log' := log + [s];
            && Replay(fs0, log', opts) == Apply(cur, s, opts)
            && |log'| >= 1 && log'[0] == CheckDestination(dest)
            && AllPlanned(log', c, dest, opts)
            && JpgParts(log') == JpgParts(log) + (if s.SaveJpg? then [s.part] else [])
            && IsPrefix(log, log')
  {
    ReplaySnoc(fs0, log, s, opts);
    JpgPartsSnoc(log, s);
    assert (log + [s])[..|log|] == log;
  }

  lemma Assoc<T>(a: seq<T>, b: seq<T>, c: seq<T>)
    ensures a + (b + c) == a + b + c
  {
  }

  lemma Regroup<T>(a: seq<T>, b: seq<T>, c: seq<T>, d: seq<T>)
    ensures a + (b + c + d) == a + b + c + d
  {
  }

  /** x + y starts with x. */
  lemma PrefixOfConcat<T>(x: seq<T>, y: seq<T>)
    ensures IsPrefix(x, x + y)
  {
    assert (x + y)[..|x|] == x;
  }

  /** Takes one planned step: the copy loops below are sequences of these. */
  method Perform(fs0: Fs, c: Copier, dest: Path, opts: Options, log: seq<Step>, cur: Fs, s: Step)
    returns (run: Run, log': seq<Step>)
    requires Consistent(fs0, c, dest, opts, log, cur)
    requires Planned(s, c, dest, opts)
    ensures log' == log + [s] && IsPrefix(log, log')
    ensures run == Replay(fs0, log', opts) && run == Apply(cur, s, opts)
    ensures |log'| >= 1 && log'[0] == CheckDestination(dest)
    ensures AllPlanned(log', c, dest, opts)
    ensures JpgParts(log') == JpgParts(log) + (if s.SaveJpg? then [s.part] else [])
    ensures run.error.None? ==> Consistent(fs0, c, dest, opts, log', run.fs)
    ensures StopsAtLast(fs0, log', opts)
  {
    ExtendLog(fs0, c, dest, opts, log, cur, s);
    log' := log + [s];
    assert log'[..|log'| - 1] == log;
    run := Apply(cur, s, opts);
  }

  /** l lists, once each, exactly what glob(join(d, pat)) finds in fs. */
  ghost predicate ListingAt(fs: Fs, d: Path, pat: string, l: seq<Path>)
  {
    Distinct(l) && forall p :: p in l <==> p in GlobSet(fs, d, pat)
  }

  /** What the save_jpg loop does for one part, given the part's *.JPG listing:
      save the first entry into dest/jpgs, or raise IndexError, changing nothing,
      when the listing is empty. */
  function JpgStep(part: Path, jpgs: seq<Path>, dest: Path): (s: Step)
    ensures jpgs == [] ==> forall fs, opts :: Apply(fs, s, opts) == Run(fs, Some(IndexError))
    ensures jpgs != [] ==> s.SaveJpg? && s.part == part && s.location == jpgs[0]
    ensures jpgs != [] ==> forall fs, opts ::
              Apply(fs, s, opts) == SaveOutcome(fs, NewJpgFile(fs, jpgs[0]), JpgDir(dest), opts.softrun)
  {
    if jpgs == [] then MissingJpg(part) else SaveJpg(part, jpgs[0], JpgDir(dest))
  }

  /** The step for a part the copier lists, given the part's true listing, is planned. */
  lemma JpgStepPlanned(fs: Fs, c: Copier, part: Path, jpgs: seq<Path>, dest: Path, opts: Options)
    requires opts.saveJpg && part in c.exerciseParts
    requires ListingAt(fs, part, JpgPattern, jpgs)
    ensures Planned(JpgStep(part, jpgs, dest), c, dest, opts)
  {
    if jpgs != [] {
      assert jpgs[0] in GlobSet(fs, part, JpgPattern);
    }
  }

  /** The steps of the save_jpg loop for the first |jl| parts, jl[i] being the
      listing glob returned for part i. */
  function JpgSaves(parts: seq<Path>, jl: seq<seq<Path>>, dest: Path): seq<Step>
    requires |jl| <= |parts|
  {
    seq(|jl|, i requires 0 <= i < |jl| => JpgStep(parts[i], jl[i], dest))
  }

  lemma JpgSavesSnoc(parts: seq<Path>, jl: seq<seq<Path>>, x: seq<Path>, dest: Path)
    requires |jl| < |parts|
    ensures JpgSaves(parts, jl + [x], dest) == JpgSaves(parts, jl, dest) + [JpgStep(parts[|jl|], x, dest)]
  {
  }

  /** The whole save_jpg block: make dest/jpgs, one step per part, and under
      softrun remove dest/jpgs. */
  function JpgPass(parts: seq<Path>, jl: seq<seq<Path>>, dest: Path, opts: Options): seq<Step>
    requires |jl| <= |parts|
  {
    [EnsureDir(dest, JpgFolder)] + JpgSaves(parts, jl, dest) + (if opts.softrun then [CleanUp(JpgDir(dest))] else [])
  }

  /** jl[i] is what glob returned for part i, taken where the run stood just before
      part i's step, after the steps pre. */
  ghost predicate JpgListed(fs0: Fs, parts: seq<Path>, dest: Path, opts: Options, pre: seq<Step>,
                      jl: seq<seq<Path>>, i: nat)
    requires i < |jl| <= |parts|
  {
    ListingAt(Replay(fs0, pre + JpgSaves(parts, jl[..i], dest), opts).fs, parts[i], JpgPattern, jl[i])
  }

  /** Taking one more listing keeps what the earlier ones said. */
  lemma JpgListingsGrow(fs0: Fs, parts: seq<Path>, dest: Path, opts: Options, pre: seq<Step>,
                        jl: seq<seq<Path>>, x: seq<Path>)
    requires |jl| < |parts|
    requires forall i :: 0 <= i < |jl| ==> JpgListed(fs0, parts, dest, opts, pre, jl, i)
    requires ListingAt(Replay(fs0, pre + JpgSaves(parts, jl, dest), opts).fs, parts[|jl|], JpgPattern, x)
    ensures forall i :: 0 <= i < |jl| + 1 ==> JpgListed(fs0, parts, dest, opts, pre, jl + [x], i)
  {
    forall i | 0 <= i < |jl| + 1 ensures JpgListed(fs0, parts, dest, opts, pre, jl + [x], i) {
      if i < |jl| {
        assert (jl + [x])[..i] == jl[..i];
        assert JpgListed(fs0, parts, dest, opts, pre, jl, i);
      } else {
        assert (jl + [x])[..i] == jl;
      }
    }
  }

  /** Where the save_jpg block leaves a run in which nothing raised, log0 being the
      steps before it: every part's first screenshot saved in the order of the parts,
      dest/jpgs there afterwards or, under softrun, gone again. */
  ghost predicate JpgBlockOk(fs0: Fs, c: Copier, dest: Path, opts: Options, log0: seq<Step>,
                             jl: seq<seq<Path>>, log: seq<Step>, cur: Fs)
  {
    && opts.saveJpg && |jl| == |c.exerciseParts|
    && log == log0 + JpgPass(c.exerciseParts, jl, dest, opts)
    && Consistent(fs0, c, dest, opts, log, cur)
    && JpgParts(log) == JpgParts(log0) + c.exerciseParts
    && (forall i :: 0 <= i < |jl| ==>
          JpgListed(fs0, c.exerciseParts, dest, opts, log0 + [EnsureDir(dest, JpgFolder)], jl, i))
    && (forall i :: 0 <= i < |jl| ==> jl[i] != [])
    && (!opts.softrun ==> Exists(cur, JpgDir(dest)))
    && (opts.softrun ==> JpgDir(dest) !in cur.dirs)
  }

  /** Where the save_jpg block leaves a run that raised: a prefix of the block's
      steps, stopped by the last one, which is IndexError when the last listing
      is empty. */
  ghost predicate JpgBlockStopped(fs0: Fs, c: Copier, dest: Path, opts: Options, log0: seq<Step>,
                                  jl: seq<seq<Path>>, log: seq<Step>, run: Run)
  {
    && |jl| <= |c.exerciseParts|
    && run.error.Some? && run == Replay(fs0, log, opts)
    && |log| >= 1 && log[0] == CheckDestination(dest)
    && AllPlanned(log, c, dest, opts)
    && IsPrefix(log0, log) && IsPrefix(log, log0 + JpgPass(c.exerciseParts, jl, dest, opts))
    && StopsAtLast(fs0, log, opts)
    && (forall i :: 0 <= i < |jl| ==>
          JpgListed(fs0, c.exerciseParts, dest, opts, log0 + [EnsureDir(dest, JpgFolder)], jl, i))
    && (forall i :: 0 <= i < |jl| - 1 ==> jl[i] != [])
    && (jl != [] && jl[|jl| - 1] == [] ==> run.error == Some(IndexError))
  }

  /** The save_jpg block of copy_scope_data: make dest/jpgs, then save the first
      *.JPG of every part there, and under softrun remove dest/jpgs again. The log
      is that block's steps up to the one that raised; jl holds the listings. */
  method CopyJpgs(fs0: Fs, c: Copier, dest: Path, opts: Options, cur0: Fs, log0: seq<Step>)
    returns (run: Run, log: seq<Step>, jl: seq<seq<Path>>)
    requires opts.saveJpg
    requires Consistent(fs0, c, dest, opts, log0, cur0)
    ensures run.error.None? ==> JpgBlockOk(fs0, c, dest, opts, log0, jl, log, run.fs)
    ensures run.error.Some? ==> JpgBlockStopped(fs0, c, dest, opts, log0, jl, log, run)
  {
    var mk := EnsureDir(dest, JpgFolder);
    run, log := Perform(fs0, c, dest, opts, log0, cur0, mk);
    jl := [];
    if run.error.Some? {
      JpgBlockStopsAtFolder(fs0, c, dest, opts, log0, log, run);
      return;
    }
    var pre, cur1 := log, run.fs;
    run, log, jl := SaveJpgs(fs0, c, dest, opts, run.fs, log);
    if run.error.Some? {
      JpgBlockStopsInLoop(fs0, c, dest, opts, log0, pre, cur1, jl, log, run);
      return;
    }
    var mid, cur2 := log, run.fs;
    run, log := EndJpgs(fs0, c, dest, opts, run.fs, log);
    if run.error.None? {
      JpgBlockDone(fs0, c, dest, opts, log0, pre, cur1, jl, mid, cur2, log, run.fs);
    } else {
      JpgBlockStopsAtCleanUp(fs0, c, dest, opts, log0, pre, cur1, jl, mid, cur2, log, run);
    }
  }

  /** Making dest/jpgs raised: the block stops at its first step. */
  lemma JpgBlockStopsAtFolder(fs0: Fs, c: Copier, dest: Path, opts: Options, log0: seq<Step>, log: seq<Step>, run: Run)
    requires log == log0 + [EnsureDir(dest, JpgFolder)] && IsPrefix(log0, log)
    requires run.error.Some? && run == Replay(fs0, log, opts)
    requires |log| >= 1 && log[0] == CheckDestination(dest) && AllPlanned(log, c, dest, opts)
    requires StopsAtLast(fs0, log, opts)
    ensures JpgBlockStopped(fs0, c, dest, opts, log0, [], log, run)
  {
    var tail := if opts.softrun then [CleanUp(JpgDir(dest))] else [];
    assert JpgSaves(c.exerciseParts, [], dest) == [];
    Regroup(log0, [EnsureDir(dest, JpgFolder)], [], tail);
    PrefixOfConcat(log, tail);
  }

  /** A step of the save_jpg loop raised: the block stops there. */
  lemma JpgBlockStopsInLoop(fs0: Fs, c: Copier, dest: Path, opts: Options, log0: seq<Step>, pre: seq<Step>, cur1: Fs,
                            jl: seq<seq<Path>>, log: seq<Step>, run: Run)
    requires pre == log0 + [EnsureDir(dest, JpgFolder)]
    requires JpgStopped(fs0, c, dest, opts, pre, cur1, jl, log, run) && run.error.Some?
    ensures JpgBlockStopped(fs0, c, dest, opts, log0, jl, log, run)
  {
    var tail := if opts.softrun then [CleanUp(JpgDir(dest))] else [];
    Regroup(log0, [EnsureDir(dest, JpgFolder)], JpgSaves(c.exerciseParts, jl, dest), tail);
    PrefixOfConcat(log0, [EnsureDir(dest, JpgFolder)]);
    PrefixOfConcat(pre, JpgSaves(c.exerciseParts, jl, dest));
    PrefixTransitive(log0, pre, log);
    PrefixOfConcat(log, tail);
  }

  /** The save_jpg block ran through: its state is the whole block's. */
  lemma JpgBlockDone(fs0: Fs, c: Copier, dest: Path, opts: Options, log0: seq<Step>, pre: seq<Step>, cur1: Fs,
                     jl: seq<seq<Path>>, mid: seq<Step>, cur2: Fs, log: seq<Step>, fs': Fs)
    requires pre == log0 + [EnsureDir(dest, JpgFolder)] && JpgParts(pre) == JpgParts(log0)
    requires Exists(cur1, JpgDir(dest))
    requires |jl| == |c.exerciseParts| && JpgLoop(fs0, c, dest, opts, pre, cur1, jl, mid, cur2)
    requires log == mid + (if opts.softrun then [CleanUp(JpgDir(dest))] else [])
    requires Consistent(fs0, c, dest, opts, log, fs') && JpgParts(log) == JpgParts(mid)
    requires !opts.softrun ==> fs' == cur2
    requires opts.softrun ==> fs'.dirs == cur2.dirs - {JpgDir(dest)}
    ensures JpgBlockOk(fs0, c, dest, opts, log0, jl, log, fs')
  {
    var tail := if opts.softrun then [CleanUp(JpgDir(dest))] else [];
    Regroup(log0, [EnsureDir(dest, JpgFolder)], JpgSaves(c.exerciseParts, jl, dest), tail);
    assert c.exerciseParts[..|jl|] == c.exerciseParts;
  }

  /** Removing dest/jpgs under softrun raised: the block stops at its last step. */
  lemma JpgBlockStopsAtCleanUp(fs0: Fs, c: Copier, dest: Path, opts: Options, log0: seq<Step>, pre: seq<Step>, cur1: Fs,
                               jl: seq<seq<Path>>, mid: seq<Step>, cur2: Fs, log: seq<Step>, run: Run)
    requires pre == log0 + [EnsureDir(dest, JpgFolder)]
    requires |jl| == |c.exerciseParts| && JpgLoop(fs0, c, dest, opts, pre, cur1, jl, mid, cur2)
    requires log == mid + (if opts.softrun then [CleanUp(JpgDir(dest))] else [])
    requires run.error.Some? && run == Replay(fs0, log, opts)
    requires |log| >= 1 && log[0] == CheckDestination(dest) && AllPlanned(log, c, dest, opts)
    requires StopsAtLast(fs0, log, opts)
    ensures JpgBlockStopped(fs0, c, dest, opts, log0, jl, log, run)
  {
    var tail := if opts.softrun then [CleanUp(JpgDir(dest))] else [];
    Regroup(log0, [EnsureDir(dest, JpgFolder)], JpgSaves(c.exerciseParts, jl, dest), tail);
    PrefixOfConcat(log0, JpgSaves(c.exerciseParts, jl, dest) + tail);
    assert log0 + JpgPass(c.exerciseParts, jl, dest, opts) == log;
  }

  /** The end of the save_jpg block: under softrun, dest/jpgs is removed. */
  method EndJpgs(fs0: Fs, c: Copier, dest: Path, opts: Options, cur0: Fs, log0: seq<Step>)
    returns (run: Run, log: seq<Step>)
    requires opts.saveJpg
    requires Consistent(fs0, c, dest, opts, log0, cur0)
    ensures log == log0 + (if opts.softrun then [CleanUp(JpgDir(dest))] else [])
    ensures run == Replay(fs0, log, opts)
    ensures |log| >= 1 && log[0] == CheckDestination(dest)
    ensures AllPlanned(log, c, dest, opts)
    ensures JpgParts(log) == JpgParts(log0)
    ensures run.error.None? ==> Consistent(fs0, c, dest, opts, log, run.fs)
    ensures run.error.Some? ==> StopsAtLast(fs0, log, opts)
    ensures !opts.softrun ==> run == Run(cur0, None)
    ensures run.error.None? && opts.softrun ==> run.fs.dirs == cur0.dirs - {JpgDir(dest)}
  {
    if opts.softrun {
      run, log := Perform(fs0, c, dest, opts, log0, cur0, CleanUp(JpgDir(dest)));
    } else {
      run, log := Run(cur0, None), log0;
      assert log0 + [] == log0;
    }
  }

  /** Where the save_jpg loop stands after the first |jl| parts, none raising. */
  ghost predicate JpgLoop(fs0: Fs, c: Copier, dest: Path, opts: Options, log0: seq<Step>, cur0: Fs,
                          jl: seq<seq<Path>>, log: seq<Step>, cur: Fs)
  {
    && opts.saveJpg && |jl| <= |c.exerciseParts|
    && Consistent(fs0, c, dest, opts, log, cur)
    && log == log0 + JpgSaves(c.exerciseParts, jl, dest)
    && JpgParts(log) == JpgParts(log0) + c.exerciseParts[..|jl|]
    && (forall k :: 0 <= k < |jl| ==> JpgListed(fs0, c.exerciseParts, dest, opts, log0, jl, k))
    && (forall k :: 0 <= k < |jl| ==> jl[k] != [])
    && cur.dirs == cur0.dirs && cur0.files.Keys <= cur.files.Keys
  }

  /** Where the save_jpg loop stands once the step of its last part raised. */
  ghost predicate JpgStopped(fs0: Fs, c: Copier, dest: Path, opts: Options, log0: seq<Step>, cur0: Fs,
                             jl: seq<seq<Path>>, log: seq<Step>, run: Run)
  {
    && |jl| <= |c.exerciseParts|
    && run == Replay(fs0, log, opts)
    && |log| >= 1 && log[0] == CheckDestination(dest)
    && AllPlanned(log, c, dest, opts)
    && log == log0 + JpgSaves(c.exerciseParts, jl, dest)
    && StopsAtLast(fs0, log, opts)
    && (forall k :: 0 <= k < |jl| ==> JpgListed(fs0, c.exerciseParts, dest, opts, log0, jl, k))
    && (forall k :: 0 <= k < |jl| - 1 ==> jl[k] != [])
    && (jl != [] && jl[|jl| - 1] == [] ==> run.error == Some(IndexError))
    && run.fs.dirs == cur0.dirs && cur0.files.Keys <= run.fs.files.Keys
  }

  /** The loop of the save_jpg block: the first *.JPG of each part, in the order
      the parts were listed; a part without one raises IndexError. jl[i] is the
      listing glob returned for part i. */
  method SaveJpgs(fs0: Fs, c: Copier, dest: Path, opts: Options, cur0: Fs, log0: seq<Step>)
    returns (run: Run, log: seq<Step>, jl: seq<seq<Path>>)
    requires opts.saveJpg
    requires Consistent(fs0, c, dest, opts, log0, cur0)
    ensures run.error.None? ==> |jl| == |c.exerciseParts| && JpgLoop(fs0, c, dest, opts, log0, cur0, jl, log, run.fs)
    ensures run.error.Some? ==> JpgStopped(fs0, c, dest, opts, log0, cur0, jl, log, run)
  {
    run, log, jl := Run(cur0, None), log0, [];
    assert log0 + JpgSaves(c.exerciseParts, jl, dest) == log0;
    assert JpgParts(log0) + c.exerciseParts[..0] == JpgParts(log0);
    var i := 0;
    while i < |c.exerciseParts|
      invariant 0 <= i <= |c.exerciseParts| && |jl| == i
      invariant run.error.None? && JpgLoop(fs0, c, dest, opts, log0, cur0, jl, log, run.fs)
    {
      run, log, jl := SaveOneJpg(fs0, c, dest, opts, log0, cur0, run.fs, log, jl);
      if run.error.Some? {
        return;
      }
      i := i + 1;
    }
  }

  /** One turn of the save_jpg loop: list the next part's *.JPG and take its step. */
  method SaveOneJpg(fs0: Fs, c: Copier, dest: Path, opts: Options, log0: seq<Step>, cur0: Fs, cur: Fs,
                    log: seq<Step>, jl: seq<seq<Path>>)
    returns (run: Run, log': seq<Step>, jl': seq<seq<Path>>)
    requires |jl| < |c.exerciseParts|
    requires JpgLoop(fs0, c, dest, opts, log0, cur0, jl, log, cur)
    ensures |jl'| == |jl| + 1
    ensures run.error.None? ==> JpgLoop(fs0, c, dest, opts, log0, cur0, jl', log', run.fs)
    ensures run.error.Some? ==> JpgStopped(fs0, c, dest, opts, log0, cur0, jl', log', run)
  {
    var part := c.exerciseParts[|jl|];
    var jpgs := GlobPaths(cur, part, JpgPattern);
    JpgStepPlanned(cur, c, part, jpgs, dest, opts);
    var s := JpgStep(part, jpgs, dest);
    run, log' := Perform(fs0, c, dest, opts, log, cur, s);
    jl' := jl + [jpgs];
    if run.error.None? {
      JpgTurnGoes(fs0, c, dest, opts, log0, cur0, jl, log, cur, jpgs, log', run.fs);
    } else {
      JpgTurnStops(fs0, c, dest, opts, log0, cur0, jl, log, cur, jpgs, run, log');
    }
  }

  /** A turn of the save_jpg loop that saves the screenshot keeps the loop's state. */
  lemma JpgTurnGoes(fs0: Fs, c: Copier, dest: Path, opts: Options, log0: seq<Step>, cur0: Fs,
                    jl: seq<seq<Path>>, log: seq<Step>, cur: Fs, jpgs: seq<Path>, log': seq<Step>, fs': Fs)
    requires |jl| < |c.exerciseParts|
    requires JpgLoop(fs0, c, dest, opts, log0, cur0, jl, log, cur)
    requires ListingAt(cur, c.exerciseParts[|jl|], JpgPattern, jpgs) && jpgs != []
    requires log' == log + [JpgStep(c.exerciseParts[|jl|], jpgs, dest)]
    requires Consistent(fs0, c, dest, opts, log', fs')
    requires JpgParts(log') == JpgParts(log) + [c.exerciseParts[|jl|]]
    requires fs'.dirs == cur.dirs && cur.files.Keys <= fs'.files.Keys
    ensures JpgLoop(fs0, c, dest, opts, log0, cur0, jl + [jpgs], log', fs')
  {
    var s := JpgStep(c.exerciseParts[|jl|], jpgs, dest);
    JpgListingsGrow(fs0, c.exerciseParts, dest, opts, log0, jl, jpgs);
    JpgSavesSnoc(c.exerciseParts, jl, jpgs, dest);
    Assoc(log0, JpgSaves(c.exerciseParts, jl, dest), [s]);
    TakeOneMore(c.exerciseParts, |jl|);
    Assoc(JpgParts(log0), c.exerciseParts[..|jl|], [c.exerciseParts[|jl|]]);
  }

  /** A turn of the save_jpg loop that raises ends the loop, after an empty listing
      with IndexError. */
  lemma JpgTurnStops(fs0: Fs, c: Copier, dest: Path, opts: Options, log0: seq<Step>, cur0: Fs,
                     jl: seq<seq<Path>>, log: seq<Step>, cur: Fs, jpgs: seq<Path>, run: Run, log': seq<Step>)
    requires |jl| < |c.exerciseParts|
    requires JpgLoop(fs0, c, dest, opts, log0, cur0, jl, log, cur)
    requires ListingAt(cur, c.exerciseParts[|jl|], JpgPattern, jpgs)
    requires log' == log + [JpgStep(c.exerciseParts[|jl|], jpgs, dest)]
    requires run == Replay(fs0, log', opts) && run == Apply(cur, JpgStep(c.exerciseParts[|jl|], jpgs, dest), opts)
    requires AllPlanned(log', c, dest, opts) && StopsAtLast(fs0, log', opts)
    requires run.error.Some?
    ensures JpgStopped(fs0, c, dest, opts, log0, cur0, jl + [jpgs], log', run)
  {
    var s := JpgStep(c.exerciseParts[|jl|], jpgs, dest);
    JpgListingsGrow(fs0, c.exerciseParts, dest, opts, log0, jl, jpgs);
    JpgSavesSnoc(c.exerciseParts, jl, jpgs, dest);
    Assoc(log0, JpgSaves(c.exerciseParts, jl, dest), [s]);
  }

  /** Every CSV file the first j parts list in fs0 is saved by some step of the log. */
  predicate CsvsCovered(fs0: Fs, c: Copier, dest: Path, opts: Options, log: seq<Step>, j: nat)
    requires j <= |c.exerciseParts|
  {
    forall i :: 0 <= i < j ==> PartCovered(fs0, c, dest, opts, log, i)
  }

  /** Saving the CSVs of part j extends the coverage of the parts before it. */
  lemma CoveredGrows(fs0: Fs, c: Copier, dest: Path, opts: Options, before: seq<Step>, log: seq<Step>, j: nat)
    requires j < |c.exerciseParts|
    requires CsvsCovered(fs0, c, dest, opts, before, j) && IsPrefix(before, log)
    requires PartCovered(fs0, c, dest, opts, log, j)
    ensures CsvsCovered(fs0, c, dest, opts, log, j + 1)
  {
    forall i | 0 <= i < j ensures PartCovered(fs0, c, dest, opts, log, i) {
      PartCoveredGrows(fs0, c, dest, opts, before, log, i);
    }
  }

  /** The saves of one part's CSV loop, in the order of its listing. */
  function CsvSaves(part: Path, csvs: seq<Path>, dir: Path): seq<Step>
  {
    seq(|csvs|, k requires 0 <= k < |csvs| => SaveCsv(part, csvs[k], dir))
  }

  /** The part's folder is made first when folders are asked for. */
  function PartStart(dest: Path, part: Path, opts: Options): seq<Step>
  {
    if opts.createFolders then [EnsureDir(dest, Basename(part))] else []
  }

  /** ... and removed last under softrun. */
  function PartEnd(dest: Path, part: Path, opts: Options): seq<Step>
  {
    if opts.softrun && opts.createFolders then [CleanUp(CsvDir(dest, part, true))] else []
  }

  /** One pass of the CSV loop, csvs being the part's listing. */
  function PartPass(dest: Path, part: Path, csvs: seq<Path>, opts: Options): seq<Step>
  {
    PartStart(dest, part, opts) + CsvSaves(part, csvs, CsvDir(dest, part, opts.createFolders)) + PartEnd(dest, part, opts)
  }

  /** The CSV loop over the first |cl| parts, cl[j] being part j's listing. */
  function CsvPass(parts: seq<Path>, cl: seq<seq<Path>>, dest: Path, opts: Options): seq<Step>
    requires |cl| <= |parts|
    decreases |cl|
  {
    if cl == [] then []
    else CsvPass(parts, cl[..|cl| - 1], dest, opts) + PartPass(dest, parts[|cl| - 1], cl[|cl| - 1], opts)
  }

  lemma CsvPassSnoc(parts: seq<Path>, cl: seq<seq<Path>>, x: seq<Path>, dest: Path, opts: Options)
    requires |cl| < |parts|
    ensures CsvPass(parts, cl + [x], dest, opts) == CsvPass(parts, cl, dest, opts) + PartPass(dest, parts[|cl|], x, opts)
  {
    assert (cl + [x])[..|cl|] == cl;
  }

  /** cl[j] is what glob returned for part j, taken where the run stood once part
      j's folder was made, the steps log0 having gone before the CSV loop. */
  ghost predicate CsvListed(fs0: Fs, parts: seq<Path>, dest: Path, opts: Options, log0: seq<Step>,
                      cl: seq<seq<Path>>, j: nat)
    requires j < |cl| <= |parts|
  {
    var pre := log0 + CsvPass(parts, cl[..j], dest, opts) + PartStart(dest, parts[j], opts);
    Replay(fs0, pre, opts).error.None? ==> ListingAt(Replay(fs0, pre, opts).fs, parts[j], CsvPattern, cl[j])
  }

  lemma CsvListingsGrow(fs0: Fs, parts: seq<Path>, dest: Path, opts: Options, log0: seq<Step>,
                        cl: seq<seq<Path>>, x: seq<Path>)
    requires |cl| < |parts|
    requires forall j :: 0 <= j < |cl| ==> CsvListed(fs0, parts, dest, opts, log0, cl, j)
    requires var pre := log0 + CsvPass(parts, cl, dest, opts) + PartStart(dest, parts[|cl|], opts);
             Replay(fs0, pre, opts).error.None? ==> ListingAt(Replay(fs0, pre, opts).fs, parts[|cl|], CsvPattern, x)
    ensures forall j :: 0 <= j < |cl| + 1 ==> CsvListed(fs0, parts, dest, opts, log0, cl + [x], j)
  {
    forall j | 0 <= j < |cl| + 1 ensures CsvListed(fs0, parts, dest, opts, log0, cl + [x], j) {
      if j < |cl| {
        assert (cl + [x])[..j] == cl[..j];
        assert CsvListed(fs0, parts, dest, opts, log0, cl, j);
      } else {
        assert (cl + [x])[..j] == cl;
      }
    }
  }

  /** One pass of the CSV loop of copy_scope_data: make the part's folder when
      asked to, save every *.CSV of the part in the order glob returned them, and
      under softrun remove the folder. csvs is that listing. */
  method CopyPartCsvs(fs0: Fs, c: Copier, dest: Path, opts: Options, i: nat, cur0: Fs, log0: seq<Step>)
    returns (run: Run, log: seq<Step>, csvs: seq<Path>)
    requires i < |c.exerciseParts|
    requires Consistent(fs0, c, dest, opts, log0, cur0)
    ensures run == Replay(fs0, log, opts)
    ensures |log| >= 1 && log[0] == CheckDestination(dest)
    ensures AllPlanned(log, c, dest, opts)
    ensures IsPrefix(log0, log) && IsPrefix(log, log0 + PartPass(dest, c.exerciseParts[i], csvs, opts))
    ensures JpgParts(log) == JpgParts(log0)
    ensures var pre := log0 + PartStart(dest, c.exerciseParts[i], opts);
            Replay(fs0, pre, opts).error.None? ==>
              ListingAt(Replay(fs0, pre, opts).fs, c.exerciseParts[i], CsvPattern, csvs)
    ensures run.error.None? ==> log == log0 + PartPass(dest, c.exerciseParts[i], csvs, opts)
    ensures run.error.Some? ==> StopsAtLast(fs0, log, opts)
    ensures run.error.None? ==> Consistent(fs0, c, dest, opts, log, run.fs)
    ensures run.error.None? ==> PartCovered(fs0, c, dest, opts, log, i)
    ensures run.error.None? && opts.createFolders && !opts.softrun ==>
              Exists(run.fs, CsvDir(dest, c.exerciseParts[i], true))
    ensures run.error.None? && opts.createFolders && opts.softrun ==>
              CsvDir(dest, c.exerciseParts[i], true) !in run.fs.dirs
  {
    var part := c.exerciseParts[i];
    ghost var start := PartStart(dest, part, opts);
    ghost var end := PartEnd(dest, part, opts);
    run, log := StartPart(fs0, c, dest, opts, i, cur0, log0);
    csvs := [];
    PrefixOfConcat(log0, start);
    if run.error.Some? {
      assert CsvSaves(part, csvs, CsvDir(dest, part, opts.createFolders)) == [];
      Regroup(log0, start, [], end);
      PrefixOfConcat(log, end);
      return;
    }
    var before := log;
    run, log, csvs := SaveCsvs(fs0, c, dest, opts, i, run.fs, log);
    ghost var saves := CsvSaves(part, csvs, CsvDir(dest, part, opts.createFolders));
    Regroup(log0, start, saves, end);
    PrefixTransitive(log0, before, log);
    if run.error.Some? {
      PrefixOfConcat(before + saves, end);
      PrefixTransitive(log, before + saves, before + saves + end);
      return;
    }
    var mid := log;
    run, log := EndPart(fs0, c, dest, opts, i, run.fs, log);
    PrefixOfConcat(mid, end);
    PrefixTransitive(log0, mid, log);
    PartCoveredGrows(fs0, c, dest, opts, mid, log, i);
  }

  /** The start of a pass of the CSV loop: the part's folder, when asked for. */
  method StartPart(fs0: Fs, c: Copier, dest: Path, opts: Options, i: nat, cur0: Fs, log0: seq<Step>)
    returns (run: Run, log: seq<Step>)
    requires i < |c.exerciseParts|
    requires Consistent(fs0, c, dest, opts, log0, cur0)
    ensures log == log0 + PartStart(dest, c.exerciseParts[i], opts)
    ensures run == Replay(fs0, log, opts)
    ensures |log| >= 1 && log[0] == CheckDestination(dest)
    ensures AllPlanned(log, c, dest, opts)
    ensures JpgParts(log) == JpgParts(log0)
    ensures run.error.None? ==> Consistent(fs0, c, dest, opts, log, run.fs)
    ensures run.error.Some? ==> StopsAtLast(fs0, log, opts)
    ensures run.error.None? && opts.createFolders ==> Exists(run.fs, CsvDir(dest, c.exerciseParts[i], true))
  {
    var part := c.exerciseParts[i];
    if opts.createFolders {
      assert Planned(EnsureDir(dest, Basename(part)), c, dest, opts) by {
        assert part in c.exerciseParts && Basename(part) == Basename(part);
      }
      run, log := Perform(fs0, c, dest, opts, log0, cur0, EnsureDir(dest, Basename(part)));
    } else {
      run, log := Run(cur0, None), log0;
      assert log0 + PartStart(dest, part, opts) == log0;
    }
  }

  /** The end of a pass of the CSV loop: under softrun, the part's folder is removed. */
  method EndPart(fs0: Fs, c: Copier, dest: Path, opts: Options, i: nat, cur0: Fs, log0: seq<Step>)
    returns (run: Run, log: seq<Step>)
    requires i < |c.exerciseParts|
    requires Consistent(fs0, c, dest, opts, log0, cur0)
    ensures log == log0 + PartEnd(dest, c.exerciseParts[i], opts)
    ensures run == Replay(fs0, log, opts)
    ensures |log| >= 1 && log[0] == CheckDestination(dest)
    ensures AllPlanned(log, c, dest, opts)
    ensures JpgParts(log) == JpgParts(log0)
    ensures run.error.None? ==> Consistent(fs0, c, dest, opts, log, run.fs)
    ensures run.error.Some? ==> StopsAtLast(fs0, log, opts)
    ensures !(opts.softrun && opts.createFolders) ==> run.fs == cur0
    ensures run.error.None? && opts.softrun && opts.createFolders ==>
              run.fs.dirs == cur0.dirs - {CsvDir(dest, c.exerciseParts[i], true)}
  {
    var part := c.exerciseParts[i];
    if opts.softrun && opts.createFolders {
      var toSave := CsvDir(dest, part, true);
      assert Planned(CleanUp(toSave), c, dest, opts) by {
        assert toSave in PlannedDirs(c, dest, opts);
      }
      run, log := Perform(fs0, c, dest, opts, log0, cur0, CleanUp(toSave));
    } else {
      run, log := Run(cur0, None), log0;
      assert log0 + PartEnd(dest, part, opts) == log0;
    }
  }

  /** Every CSV file part i lists in fs0 is saved by some step of the log. */
  predicate PartCovered(fs0: Fs, c: Copier, dest: Path, opts: Options, log: seq<Step>, i: nat)
    requires i < |c.exerciseParts|
  {
    forall loc :: loc in fs0.files && Listed(c.exerciseParts[i], CsvPattern, loc) ==>
      SaveCsv(c.exerciseParts[i], loc, CsvDir(dest, c.exerciseParts[i], opts.createFolders)) in log
  }

  lemma PartCoveredGrows(fs0: Fs, c: Copier, dest: Path, opts: Options, before: seq<Step>, log: seq<Step>, i: nat)
    requires i < |c.exerciseParts|
    requires PartCovered(fs0, c, dest, opts, before, i) && IsPrefix(before, log)
    ensures PartCovered(fs0, c, dest, opts, log, i)
  {
    forall loc | loc in fs0.files && Listed(c.exerciseParts[i], CsvPattern, loc)
      ensures SaveCsv(c.exerciseParts[i], loc, CsvDir(dest, c.exerciseParts[i], opts.createFolders)) in log
    {
      PrefixMembers(before, log, SaveCsv(c.exerciseParts[i], loc, CsvDir(dest, c.exerciseParts[i], opts.createFolders)));
    }
  }

  /** The inner loop of the CSV pass: every entry of the part's *.CSV listing, in
      order, saved into the part's target folder. csvs is that listing. */
  method SaveCsvs(fs0: Fs, c: Copier, dest: Path, opts: Options, i: nat, cur0: Fs, log0: seq<Step>)
    returns (run: Run, log: seq<Step>, csvs: seq<Path>)
    requires i < |c.exerciseParts|
    requires Consistent(fs0, c, dest, opts, log0, cur0)
    ensures ListingAt(cur0, c.exerciseParts[i], CsvPattern, csvs)
    ensures run == Replay(fs0, log, opts)
    ensures |log| >= 1 && log[0] == CheckDestination(dest)
    ensures AllPlanned(log, c, dest, opts)
    ensures var saves := CsvSaves(c.exerciseParts[i], csvs, CsvDir(dest, c.exerciseParts[i], opts.createFolders));
            IsPrefix(log0, log) && IsPrefix(log, log0 + saves) && (run.error.None? ==> log == log0 + saves)
    ensures run.error.Some? ==> StopsAtLast(fs0, log, opts)
    ensures JpgParts(log) == JpgParts(log0)
    ensures run.fs.dirs == cur0.dirs && cur0.files.Keys <= run.fs.files.Keys
    ensures run.error.None? ==> Consistent(fs0, c, dest, opts, log, run.fs)
    ensures run.error.None? ==> PartCovered(fs0, c, dest, opts, log, i)
  {
    var part := c.exerciseParts[i];
    csvs := GlobPaths(cur0, part, CsvPattern);
    ghost var saves := CsvSaves(part, csvs, CsvDir(dest, part, opts.createFolders));
    run, log := Run(cur0, None), log0;
    assert log0 + saves[..0] == log0;
    var k := 0;
    while k < |csvs|
      invariant 0 <= k <= |csvs|
      invariant run.error.None? && Consistent(fs0, c, dest, opts, log, run.fs)
      invariant log == log0 + saves[..k]
      invariant JpgParts(log) == JpgParts(log0)
      invariant run.fs.dirs == cur0.dirs && cur0.files.Keys <= run.fs.files.Keys
    {
      run, log := SaveOneCsv(fs0, c, dest, opts, i, cur0, csvs, k, log0, log, run.fs);
      if run.error.Some? {
        PrefixOfAppend(log0, saves, k + 1);
        return;
      }
      k := k + 1;
    }
    AllSaved(fs0, c, dest, opts, log0, cur0, i, csvs, log);
  }

  /** a followed by the first k steps of b is a prefix of a + b, and starts with a. */
  lemma PrefixOfAppend<T>(a: seq<T>, b: seq<T>, k: nat)
    requires k <= |b|
    ensures IsPrefix(a + b[..k], a + b) && IsPrefix(a, a + b[..k])
  {
    assert (a + b)[..|a| + k] == a + b[..k];
    assert (a + b[..k])[..|a|] == a;
  }

  /** One turn of the inner CSV loop: save the k-th listed entry. */
  method SaveOneCsv(fs0: Fs, c: Copier, dest: Path, opts: Options, i: nat, cur0: Fs, csvs: seq<Path>, k: nat,
                    log0: seq<Step>, log: seq<Step>, cur: Fs)
    returns (run: Run, log': seq<Step>)
    requires i < |c.exerciseParts| && k < |csvs|
    requires forall p :: p in csvs <==> p in GlobSet(cur0, c.exerciseParts[i], CsvPattern)
    requires Consistent(fs0, c, dest, opts, log, cur)
    requires log == log0 + CsvSaves(c.exerciseParts[i], csvs, CsvDir(dest, c.exerciseParts[i], opts.createFolders))[..k]
    requires JpgParts(log) == JpgParts(log0)
    requires cur.dirs == cur0.dirs && cur0.files.Keys <= cur.files.Keys
    ensures log' == log0 + CsvSaves(c.exerciseParts[i], csvs, CsvDir(dest, c.exerciseParts[i], opts.createFolders))[..k + 1]
    ensures StopsAtLast(fs0, log', opts)
    ensures run == Replay(fs0, log', opts)
    ensures |log'| >= 1 && log'[0] == CheckDestination(dest)
    ensures AllPlanned(log', c, dest, opts)
    ensures JpgParts(log') == JpgParts(log0)
    ensures run.fs.dirs == cur0.dirs && cur0.files.Keys <= run.fs.files.Keys
    ensures run.error.None? ==> Consistent(fs0, c, dest, opts, log', run.fs)
  {
    ghost var saves := CsvSaves(c.exerciseParts[i], csvs, CsvDir(dest, c.exerciseParts[i], opts.createFolders));
    assert csvs[k] in GlobSet(cur0, c.exerciseParts[i], CsvPattern);
    var s := SaveCsv(c.exerciseParts[i], csvs[k], CsvDir(dest, c.exerciseParts[i], opts.createFolders));
    run, log' := Perform(fs0, c, dest, opts, log, cur, s);
    assert s == saves[k];
    TakeOneMore(saves, k);
    Assoc(log0, saves[..k], [s]);
  }

  /** Once the loop has saved the whole listing, every CSV file of the part is covered. */
  lemma AllSaved(fs0: Fs, c: Copier, dest: Path, opts: Options, log0: seq<Step>, cur0: Fs, i: nat,
                 csvs: seq<Path>, log: seq<Step>)
    requires i < |c.exerciseParts|
    requires Consistent(fs0, c, dest, opts, log0, cur0)
    requires forall p :: p in csvs <==> p in GlobSet(cur0, c.exerciseParts[i], CsvPattern)
    requires log == log0 + CsvSaves(c.exerciseParts[i], csvs, CsvDir(dest, c.exerciseParts[i], opts.createFolders))[..|csvs|]
    ensures var saves := CsvSaves(c.exerciseParts[i], csvs, CsvDir(dest, c.exerciseParts[i], opts.createFolders));
            log == log0 + saves && IsPrefix(log0, log) && IsPrefix(log, log0 + saves)
    ensures PartCovered(fs0, c, dest, opts, log, i)
  {
    var dir := CsvDir(dest, c.exerciseParts[i], opts.createFolders);
    var saves := CsvSaves(c.exerciseParts[i], csvs, dir);
    assert saves[..|csvs|] == saves;
    PrefixOfConcat(log0, saves);
    forall m | 0 <= m < |csvs| ensures SaveCsv(c.exerciseParts[i], csvs[m], dir) in log {
      assert log[|log0| + m] == saves[m];
    }
    AllListedSaved(fs0, c, dest, opts, log0, cur0, i, csvs, log);
  }

  /** Saving every entry of a listing taken after log0 covers every CSV file of fs0. */
  lemma AllListedSaved(fs0: Fs, c: Copier, dest: Path, opts: Options, log0: seq<Step>, cur0: Fs, i: nat,
                       csvs: seq<Path>, log: seq<Step>)
    requires i < |c.exerciseParts|
    requires Consistent(fs0, c, dest, opts, log0, cur0)
    requires forall p :: p in csvs <==> p in GlobSet(cur0, c.exerciseParts[i], CsvPattern)
    requires forall m :: 0 <= m < |csvs| ==>
               SaveCsv(c.exerciseParts[i], csvs[m], CsvDir(dest, c.exerciseParts[i], opts.createFolders)) in log
    ensures PartCovered(fs0, c, dest, opts, log, i)
  {
    forall loc | loc in fs0.files && Listed(c.exerciseParts[i], CsvPattern, loc)
      ensures SaveCsv(c.exerciseParts[i], loc, CsvDir(dest, c.exerciseParts[i], opts.createFolders)) in log
    {
      assert loc in GlobSet(cur0, c.exerciseParts[i], CsvPattern);
      var m :| 0 <= m < |csvs| && csvs[m] == loc;
    }
  }

  /** Where the CSV loop stands after the passes of the first |cl| parts, none raising. */
  ghost predicate CsvLoop(fs0: Fs, c: Copier, dest: Path, opts: Options, log0: seq<Step>,
                          cl: seq<seq<Path>>, log: seq<Step>, cur: Fs)
  {
    && |cl| <= |c.exerciseParts|
    && Consistent(fs0, c, dest, opts, log, cur)
    && JpgParts(log) == JpgParts(log0)
    && log == log0 + CsvPass(c.exerciseParts, cl, dest, opts)
    && CsvsCovered(fs0, c, dest, opts, log, |cl|)
    && (forall m :: 0 <= m < |cl| ==> CsvListed(fs0, c.exerciseParts, dest, opts, log0, cl, m))
  }

  /** Where the CSV loop stands once a pass raised. */
  ghost predicate CsvStopped(fs0: Fs, c: Copier, dest: Path, opts: Options, log0: seq<Step>,
                             cl: seq<seq<Path>>, log: seq<Step>, run: Run)
  {
    && |cl| <= |c.exerciseParts|
    && run.error.Some? && run == Replay(fs0, log, opts)
    && |log| >= 1 && log[0] == CheckDestination(dest)
    && AllPlanned(log, c, dest, opts)
    && JpgParts(log) == JpgParts(log0)
    && IsPrefix(log0, log) && IsPrefix(log, log0 + CsvPass(c.exerciseParts, cl, dest, opts))
    && StopsAtLast(fs0, log, opts)
    && (forall m :: 0 <= m < |cl| ==> CsvListed(fs0, c.exerciseParts, dest, opts, log0, cl, m))
  }

  /** The CSV loop of copy_scope_data over every part, in the copier's order; cl[j]
      is the listing glob returned for part j. */
  method CopyCsvs(fs0: Fs, c: Copier, dest: Path, opts: Options, cur0: Fs, log0: seq<Step>)
    returns (run: Run, log: seq<Step>, cl: seq<seq<Path>>)
    requires Consistent(fs0, c, dest, opts, log0, cur0)
    ensures run.error.None? ==> |cl| == |c.exerciseParts| && CsvLoop(fs0, c, dest, opts, log0, cl, log, run.fs)
    ensures run.error.Some? ==> CsvStopped(fs0, c, dest, opts, log0, cl, log, run)
  {
    run, log, cl := Run(cur0, None), log0, [];
    assert log0 + CsvPass(c.exerciseParts, cl, dest, opts) == log0;
    var j := 0;
    while j < |c.exerciseParts|
      invariant 0 <= j <= |c.exerciseParts| && |cl| == j
      invariant run.error.None? && CsvLoop(fs0, c, dest, opts, log0, cl, log, run.fs)
    {
      run, log, cl := CopyNextPart(fs0, c, dest, opts, log0, run.fs, log, cl);
      if run.error.Some? {
        return;
      }
      j := j + 1;
    }
  }

  /** One turn of the CSV loop over the parts: the next part's pass. */
  method CopyNextPart(fs0: Fs, c: Copier, dest: Path, opts: Options, log0: seq<Step>, cur: Fs,
                      log: seq<Step>, cl: seq<seq<Path>>)
    returns (run: Run, log': seq<Step>, cl': seq<seq<Path>>)
    requires |cl| < |c.exerciseParts|
    requires CsvLoop(fs0, c, dest, opts, log0, cl, log, cur)
    ensures |cl'| == |cl| + 1
    ensures run.error.None? ==> CsvLoop(fs0, c, dest, opts, log0, cl', log', run.fs)
    ensures run.error.Some? ==> CsvStopped(fs0, c, dest, opts, log0, cl', log', run)
  {
    var csvs;
    run, log', csvs := CopyPartCsvs(fs0, c, dest, opts, |cl|, cur, log);
    CsvListingsGrow(fs0, c.exerciseParts, dest, opts, log0, cl, csvs);
    CsvPassSnoc(c.exerciseParts, cl, csvs, dest, opts);
    Assoc(log0, CsvPass(c.exerciseParts, cl, dest, opts), PartPass(dest, c.exerciseParts[|cl|], csvs, opts));
    PrefixOfConcat(log0, CsvPass(c.exerciseParts, cl, dest, opts));
    PrefixTransitive(log0, log, log');
    cl' := cl + [csvs];
    if run.error.None? {
      CoveredGrows(fs0, c, dest, opts, log, log', |cl|);
    }
  }

  /** The save_jpg block when it is asked for. */
  function JpgPlan(parts: seq<Path>, jl: seq<seq<Path>>, dest: Path, opts: Options): seq<Step>
    requires |jl| <= |parts|
  {
    if opts.saveJpg then JpgPass(parts, jl, dest, opts) else []
  }

  /** Everything copy_scope_data sets out to do, in order, given the listings glob
      returned: check the destination, the save_jpg block, then the CSV loop. */
  function CopyPlan(c: Copier, dest: Path, opts: Options, jl: seq<seq<Path>>, cl: seq<seq<Path>>): seq<Step>
    requires |jl| <= |c.exerciseParts| && |cl| <= |c.exerciseParts|
  {
    [CheckDestination(dest)] + JpgPlan(c.exerciseParts, jl, dest, opts) + CsvPass(c.exerciseParts, cl, dest, opts)
  }

  /** What copy_scope_data promises about its run, log and listings, apart from the
      effect on the disk: see CopyScopeData. */
  ghost predicate ScopeOutcome(fs: Fs, c: Copier, dest: Path, opts: Options, run: Run, log: seq<Step>,
                               jl: seq<seq<Path>>, cl: seq<seq<Path>>)
  {
    && |jl| <= |c.exerciseParts| && |cl| <= |c.exerciseParts|
    && run == Replay(fs, log, opts)
    && IsPrefix(log, CopyPlan(c, dest, opts, jl, cl))
    && run == Replay(fs, CopyPlan(c, dest, opts, jl, cl), opts)
    && (!opts.saveJpg ==> jl == [])
    && (opts.saveJpg && cl != [] ==> |jl| == |c.exerciseParts|)
    && (forall i :: 0 <= i < |jl| ==>
          JpgListed(fs, c.exerciseParts, dest, opts, [CheckDestination(dest), EnsureDir(dest, JpgFolder)], jl, i))
    && (forall j :: 0 <= j < |cl| ==>
          CsvListed(fs, c.exerciseParts, dest, opts, [CheckDestination(dest)] + JpgPlan(c.exerciseParts, jl, dest, opts), cl, j))
    && (forall i :: 0 <= i < |jl| - 1 ==> jl[i] != [])
    && (jl != [] && jl[|jl| - 1] == [] ==> cl == [] && run.error == Some(IndexError))
    && (run.error.None? ==>
          && log == CopyPlan(c, dest, opts, jl, cl)
          && |cl| == |c.exerciseParts| && |jl| == (if opts.saveJpg then |c.exerciseParts| else 0))
    && |log| >= 1 && log[0] == CheckDestination(dest)
    && AllPlanned(log, c, dest, opts)
    && (!Exists(fs, dest) ==> log == [CheckDestination(dest)] && run == Run(fs, Some(FileNotFound(dest))))
    && (run.error.None? ==> JpgParts(log) == (if opts.saveJpg then c.exerciseParts else []))
    && (run.error.None? ==> CsvsCovered(fs, c, dest, opts, log, |c.exerciseParts|))
    && (run.error.Some? ==> StopsAtLast(fs, log, opts))
  }

  /** A missing destination stops copy_scope_data at its first step. */
  lemma ScopeStopsAtCheck(fs: Fs, c: Copier, dest: Path, opts: Options, run: Run)
    requires run == Apply(fs, CheckDestination(dest), opts) && run.error.Some?
    ensures ScopeOutcome(fs, c, dest, opts, run, [CheckDestination(dest)], [], [])
  {
    var log := [CheckDestination(dest)];
    ReplaySnoc(fs, [], CheckDestination(dest), opts);
    assert [] + log == log;
    assert log[..0] == [];
    var plan := CopyPlan(c, dest, opts, [], []);
    assert plan == log + (JpgPlan(c.exerciseParts, [], dest, opts) + CsvPass(c.exerciseParts, [], dest, opts));
    PrefixOfConcat(log, JpgPlan(c.exerciseParts, [], dest, opts) + CsvPass(c.exerciseParts, [], dest, opts));
    ReplayPrefixStops(fs, log, plan, opts);
  }

  /** A run that raises in the save_jpg block takes no step of the CSV loop. */
  lemma ScopeStopsInJpgs(fs: Fs, c: Copier, dest: Path, opts: Options, jl: seq<seq<Path>>, log: seq<Step>, run: Run)
    requires opts.saveJpg && Exists(fs, dest)
    requires JpgBlockStopped(fs, c, dest, opts, [CheckDestination(dest)], jl, log, run)
    ensures ScopeOutcome(fs, c, dest, opts, run, log, jl, [])
  {
    assert [CheckDestination(dest)] + [EnsureDir(dest, JpgFolder)] == [CheckDestination(dest), EnsureDir(dest, JpgFolder)];
    var plan := CopyPlan(c, dest, opts, jl, []);
    assert plan == [CheckDestination(dest)] + JpgPass(c.exerciseParts, jl, dest, opts);
    ReplayPrefixStops(fs, log, plan, opts);
  }

  /** The state the save_jpg block, or its absence, hands to the CSV loop. */
  ghost predicate JpgPhaseOk(fs: Fs, c: Copier, dest: Path, opts: Options, jl: seq<seq<Path>>, log: seq<Step>, cur: Fs)
  {
    && (opts.saveJpg ==> JpgBlockOk(fs, c, dest, opts, [CheckDestination(dest)], jl, log, cur))
    && (!opts.saveJpg ==> jl == [] && log == [CheckDestination(dest)] && Consistent(fs, c, dest, opts, log, cur))
  }

  /** The JPG listings and the log before the CSV loop, in the terms of the plan. */
  lemma JpgPhaseFacts(fs: Fs, c: Copier, dest: Path, opts: Options, jl: seq<seq<Path>>, log: seq<Step>, cur: Fs)
    requires JpgPhaseOk(fs, c, dest, opts, jl, log, cur)
    ensures |jl| == (if opts.saveJpg then |c.exerciseParts| else 0)
    ensures log == [CheckDestination(dest)] + JpgPlan(c.exerciseParts, jl, dest, opts)
    ensures JpgParts(log) == (if opts.saveJpg then c.exerciseParts else [])
    ensures forall i :: 0 <= i < |jl| ==> jl[i] != []
    ensures forall i :: 0 <= i < |jl| ==>
              JpgListed(fs, c.exerciseParts, dest, opts, [CheckDestination(dest), EnsureDir(dest, JpgFolder)], jl, i)
  {
    assert [CheckDestination(dest)] + [EnsureDir(dest, JpgFolder)] == [CheckDestination(dest), EnsureDir(dest, JpgFolder)];
    JpgPartsSnoc([], CheckDestination(dest));
    assert [] + [CheckDestination(dest)] == [CheckDestination(dest)];
    if !opts.saveJpg {
      assert [CheckDestination(dest)] + [] == [CheckDestination(dest)];
    }
  }

  /** A run in which nothing raised took the whole plan. */
  lemma ScopeCsvsDone(fs: Fs, c: Copier, dest: Path, opts: Options, jl: seq<seq<Path>>, log1: seq<Step>, cur1: Fs,
                      cl: seq<seq<Path>>, log: seq<Step>, run: Run)
    requires Exists(fs, dest) && JpgPhaseOk(fs, c, dest, opts, jl, log1, cur1)
    requires run.error.None? && |cl| == |c.exerciseParts| && CsvLoop(fs, c, dest, opts, log1, cl, log, run.fs)
    ensures ScopeOutcome(fs, c, dest, opts, run, log, jl, cl)
  {
    JpgPhaseFacts(fs, c, dest, opts, jl, log1, cur1);
    assert run == Run(run.fs, None);
    PrefixOfConcat(log, []);
    assert log + [] == log;
  }

  /** A run that raised in the CSV loop is the plan up to that step. */
  lemma ScopeStopsInCsvs(fs: Fs, c: Copier, dest: Path, opts: Options, jl: seq<seq<Path>>, log1: seq<Step>, cur1: Fs,
                         cl: seq<seq<Path>>, log: seq<Step>, run: Run)
    requires Exists(fs, dest) && JpgPhaseOk(fs, c, dest, opts, jl, log1, cur1)
    requires CsvStopped(fs, c, dest, opts, log1, cl, log, run)
    ensures ScopeOutcome(fs, c, dest, opts, run, log, jl, cl)
  {
    JpgPhaseFacts(fs, c, dest, opts, jl, log1, cur1);
    ReplayPrefixStops(fs, log, CopyPlan(c, dest, opts, jl, cl), opts);
  }

  /** ScopeOutcome clause by clause. */
  lemma ScopeOutcomeClauses(fs: Fs, c: Copier, dest: Path, opts: Options, run: Run, log: seq<Step>,
                            jl: seq<seq<Path>>, cl: seq<seq<Path>>)
    requires ScopeOutcome(fs, c, dest, opts, run, log, jl, cl)
    ensures |jl| <= |c.exerciseParts| && |cl| <= |c.exerciseParts|
    ensures run == Replay(fs, log, opts)
    ensures IsPrefix(log, CopyPlan(c, dest, opts, jl, cl))
    ensures run == Replay(fs, CopyPlan(c, dest, opts, jl, cl), opts)
    ensures !opts.saveJpg ==> jl == []
    ensures opts.saveJpg && cl != [] ==> |jl| == |c.exerciseParts|
    ensures forall i :: 0 <= i < |jl| ==>
              JpgListed(fs, c.exerciseParts, dest, opts, [CheckDestination(dest), EnsureDir(dest, JpgFolder)], jl, i)
    ensures forall j :: 0 <= j < |cl| ==>
              CsvListed(fs, c.exerciseParts, dest, opts, [CheckDestination(dest)] + JpgPlan(c.exerciseParts, jl, dest, opts), cl, j)
    ensures forall i :: 0 <= i < |jl| - 1 ==> jl[i] != []
    ensures jl != [] && jl[|jl| - 1] == [] ==> cl == [] && run.error == Some(IndexError)
    ensures run.error.None? ==>
              && log == CopyPlan(c, dest, opts, jl, cl)
              && |cl| == |c.exerciseParts| && |jl| == (if opts.saveJpg then |c.exerciseParts| else 0)
    ensures |log| >= 1 && log[0] == CheckDestination(dest)
    ensures AllPlanned(log, c, dest, opts)
    ensures !Exists(fs, dest) ==> log == [CheckDestination(dest)] && run == Run(fs, Some(FileNotFound(dest)))
    ensures run.error.None? ==> JpgParts(log) == (if opts.saveJpg then c.exerciseParts else [])
    ensures run.error.None? ==> CsvsCovered(fs, c, dest, opts, log, |c.exerciseParts|)
    ensures run.error.Some? ==> StopsAtLast(fs, log, opts)
  {
  }

  /** copy_scope_data: the run it performs is the plan up to the first step that
      raises, with jl and cl the JPG and CSV listings glob returned along the way;
      the steps are all planned ones, a missing destination stops it at once, an
      empty JPG listing raises IndexError, and a run without an exception takes the
      whole plan, saving one screenshot per part (when asked) and every CSV file of
      every part, with only the allowed effect on the disk. */
  method CopyScopeData(fs: Fs, c: Copier, dest: Path, opts: Options)
    returns (run: Run, log: seq<Step>, jl: seq<seq<Path>>, cl: seq<seq<Path>>)
    ensures |jl| <= |c.exerciseParts| && |cl| <= |c.exerciseParts|
    ensures run == Replay(fs, log, opts)
    ensures IsPrefix(log, CopyPlan(c, dest, opts, jl, cl))
    ensures run == Replay(fs, CopyPlan(c, dest, opts, jl, cl), opts)
    ensures !opts.saveJpg ==> jl == []
    ensures opts.saveJpg && cl != [] ==> |jl| == |c.exerciseParts|
    ensures forall i :: 0 <= i < |jl| ==>
              JpgListed(fs, c.exerciseParts, dest, opts, [CheckDestination(dest), EnsureDir(dest, JpgFolder)], jl, i)
    ensures forall j :: 0 <= j < |cl| ==>
              CsvListed(fs, c.exerciseParts, dest, opts, [CheckDestination(dest)] + JpgPlan(c.exerciseParts, jl, dest, opts), cl, j)
    ensures forall i :: 0 <= i < |jl| - 1 ==> jl[i] != []
    ensures jl != [] && jl[|jl| - 1] == [] ==> cl == [] && run.error == Some(IndexError)
    ensures run.error.None? ==>
              && log == CopyPlan(c, dest, opts, jl, cl)
              && |cl| == |c.exerciseParts| && |jl| == (if opts.saveJpg then |c.exerciseParts| else 0)
    ensures |log| >= 1 && log[0] == CheckDestination(dest)
    ensures AllPlanned(log, c, dest, opts)
    ensures !Exists(fs, dest) ==> log == [CheckDestination(dest)] && run == Run(fs, Some(FileNotFound(dest)))
    ensures run.error.None? ==> JpgParts(log) == (if opts.saveJpg then c.exerciseParts else [])
    ensures run.error.None? ==> CsvsCovered(fs, c, dest, opts, log, |c.exerciseParts|)
    ensures run.error.Some? ==> StopsAtLast(fs, log, opts)
    ensures Effect(fs, run.fs, c, dest, opts)
    ensures Valid(fs) ==> Valid(run.fs)
  {
    var s := CheckDestination(dest);
    log := [s];
    run := Apply(fs, s, opts);
    jl, cl := [], [];
    if run.error.Some? {
      ScopeStopsAtCheck(fs, c, dest, opts, run);
    } else {
      ReplaySnoc(fs, [], s, opts);
      assert [] + [s] == log;
      if opts.saveJpg {
        run, log, jl := CopyJpgs(fs, c, dest, opts, fs, log);
      }
      if run.error.Some? {
        ScopeStopsInJpgs(fs, c, dest, opts, jl, log, run);
      } else {
        var log1, cur1 := log, run.fs;
        assert JpgPhaseOk(fs, c, dest, opts, jl, log1, cur1);
        run, log, cl := CopyCsvs(fs, c, dest, opts, cur1, log1);
        if run.error.None? {
          ScopeCsvsDone(fs, c, dest, opts, jl, log1, cur1, cl, log, run);
        } else {
          ScopeStopsInCsvs(fs, c, dest, opts, jl, log1, cur1, cl, log, run);
        }
      }
    }
    ScopeOutcomeClauses(fs, c, dest, opts, run, log, jl, cl);
    ReplayPlanned(fs, log, c, dest, opts);
  }
}
