/** setup_lab.py: the checks on the command-line values, the choice between the
    copy-only, prelab-only and full modes, the directory scaffold of a lab, the
    list of student names on the notebooks, and the cell lists of the prelab and
    lab-report notebooks. */
module LabSetup {
  import opened Wrappers
  import opened Strings
  import opened Paths
  import opened FileSystem
  import opened Glob
  import opened ScopeCopier

  // ---------------------------------------------------------------------------
  // Command-line values and their checks

  /** The parsed command line. A list option that was not given is None. */
  datatype Args = Args(
    labNumber: int,
    numExercises: int,
    generateNotebooks: bool,
    driveName: string,
    copyOnly: bool,
    prelabOnly: bool,
    studentNames: Option<seq<string>>,
    studentIds: Option<seq<string>>)

  /** The three ways parser.error ends the script. */
  datatype UsageError = MissingStudents | CountMismatch | CopyConflict

  /** Python's `not xs` on an optional list: absent or empty. */
  predicate Missing(xs: Option<seq<string>>) { xs.None? || |xs.value| == 0 }

  /** Names and ids were both given, and pair up one to one. */
  predicate StudentsPaired(a: Args)
  {
    && a.studentNames.Some? && a.studentIds.Some?
    && |a.studentNames.value| >= 1
    && |a.studentNames.value| == |a.studentIds.value|
  }

  /** The checks in the order the script makes them; the first that fails is reported. */
  function Validate(a: Args): (r: Option<UsageError>)
    ensures r.None? <==> (a.generateNotebooks ==> StudentsPaired(a)) && !(a.prelabOnly && a.copyOnly)
    ensures r == Some(MissingStudents) <==> a.generateNotebooks && (Missing(a.studentNames) || Missing(a.studentIds))
    ensures r == Some(CountMismatch) <==>
              && a.generateNotebooks && !Missing(a.studentNames) && !Missing(a.studentIds)
              && |a.studentNames.value| != |a.studentIds.value|
    ensures r == Some(CopyConflict) <==> (a.generateNotebooks ==> StudentsPaired(a)) && a.prelabOnly && a.copyOnly
  {
    if a.generateNotebooks && (Missing(a.studentNames) || Missing(a.studentIds)) then Some(MissingStudents)
    else if a.generateNotebooks && |a.studentNames.value| != |a.studentIds.value| then Some(CountMismatch)
    else if a.prelabOnly && a.copyOnly then Some(CopyConflict)
    else None
  }

  /** -p together with -c never gets past the checks, whatever else is given. */
  lemma PrelabWithCopyRejected(a: Args)
    requires a.prelabOnly && a.copyOnly
    ensures Validate(a).Some?
    ensures !a.generateNotebooks ==> Validate(a) == Some(CopyConflict)
  {
  }

  // ---------------------------------------------------------------------------
  // The directory scaffold

  /** f"Lab {lab_number}": a single folder name. */
  function LabName(labNumber: int): (r: string)
    ensures r != "" && IsComponent(r)
  {
    "Lab " + IntStr(labNumber)
  }

  /** The lab folder's name reads back as the lab number. */
  lemma LabNameReadsBack(labNumber: int)
    ensures var r := LabName(labNumber);
            && |r| > 4 && r[..4] == "Lab "
            && (labNumber >= 0 ==> AllDigits(r[4..]) && ParseNat(r[4..]) == labNumber)
            && (labNumber < 0 ==> r[4] == '-' && AllDigits(r[5..]) && ParseNat(r[5..]) == -labNumber)
  {
    var r := LabName(labNumber);
    assert r[4..] == IntStr(labNumber);
    assert r[5..] == IntStr(labNumber)[1..];
  }

  /** f"exp{i}": a single folder name. */
  function ExpName(i: nat): (r: string)
    ensures r != "" && IsComponent(r)
  {
    var d := NatStr(i);
    assert forall k :: 0 <= k < |d| ==> d[k] != '/';
    "exp" + d
  }

  /** An experiment folder's name reads back as the experiment number. */
  lemma ExpNameReadsBack(i: nat)
    ensures var r := ExpName(i);
            |r| > 3 && r[..3] == "exp" && AllDigits(r[3..]) && ParseNat(r[3..]) == i
  {
    var r := ExpName(i);
    assert r[3..] == NatStr(i);
    ParseNatStr(i);
  }

  /** The number of experiments range(1, num_exercises + 1) runs over. */
  function Count(n: int): nat { if n > 0 then n else 0 }

  function LabDir(cwd: Path, labNumber: int): Path { Join(cwd, LabName(labNumber)) }

  function PrelabDir(cwd: Path, labNumber: int): Path { Join(LabDir(cwd, labNumber), "prelab") }

  /** Where the oscilloscope data of the lab goes. */
  function ScopeDir(cwd: Path, labNumber: int): Path { Join(LabDir(cwd, labNumber), "scope") }

  /** The folders every lab has. */
  const LabFolders: seq<string> := ["assets", "prelab", "scope"]

  /** `if not os.path.exists(join(parent, name)): os.makedirs(...)`, one of the script's steps. */
  datatype DirStep = DirStep(parent: Path, name: string)

  /** Step k of the script: the lab folder, its three sub-folders, then one folder
      per experiment inside prelab. */
  function ScaffoldStep(cwd: Path, labNumber: int, k: nat): DirStep
  {
    var lab := LabDir(cwd, labNumber);
    if k == 0 then DirStep(cwd, LabName(labNumber))
    else if k <= 3 then DirStep(lab, LabFolders[k - 1])
    else DirStep(PrelabDir(cwd, labNumber), ExpName(k - 3))
  }

  function ScaffoldPlan(cwd: Path, labNumber: int, n: int): seq<DirStep>
  {
    seq(4 + Count(n), k requires 0 <= k => ScaffoldStep(cwd, labNumber, k))
  }

  /** The folders of the experiments 1 to n. */
  function ExpDirs(prelab: Path, n: int): set<Path>
  {
    set i: nat | 1 <= i <= n :: Join(prelab, ExpName(i))
  }

  /** The directories a lab needs, written out. */
  function ScaffoldDirs(cwd: Path, labNumber: int, n: int): set<Path>
  {
    var lab := LabDir(cwd, labNumber);
    {lab, Join(lab, "assets"), Join(lab, "prelab"), Join(lab, "scope")} + ExpDirs(PrelabDir(cwd, labNumber), n)
  }

  /** The steps applied in order, stopping at the first os.makedirs that raises. */
  function EnsureAll(fs: Fs, plan: seq<DirStep>): Run
    decreases |plan|
  {
    if plan == [] then Run(fs, None)
    else
      match EnsureDirIn(fs, plan[0].parent, plan[0].name)
      case Err(e) => Run(fs, Some(e))
      case Ok(fs') => EnsureAll(fs', plan[1..])
  }

  lemma EnsureAllFrom(fs: Fs, plan: seq<DirStep>, j: nat)
    requires j < |plan|
    ensures var e := EnsureDirIn(fs, plan[j].parent, plan[j].name);
            EnsureAll(fs, plan[j..]) == if e.Err? then Run(fs, Some(e.error)) else EnsureAll(e.value, plan[j + 1..])
  {
    assert plan[j..][0] == plan[j] && plan[j..][1..] == plan[j + 1..];
  }

  /** Lines 46-73 of the script: the lab folder, assets, prelab and scope, then the
      experiment folders when there are any, each made only where nothing exists. */
  method Scaffold(fs: Fs, cwd: Path, labNumber: int, numExercises: int) returns (r: Run)
    ensures r == EnsureAll(fs, ScaffoldPlan(cwd, labNumber, numExercises))
  {
    ghost var plan := ScaffoldPlan(cwd, labNumber, numExercises);
    var labName := LabName(labNumber);
    var labDir := Join(cwd, labName);
    ScaffoldPlanShape(cwd, labNumber, numExercises);
    EnsureAllFrom(fs, plan, 0);
    var made := EnsureDirIn(fs, cwd, labName);
    if made.Err? {
      return Run(fs, Some(made.error));
    }
    r := MakeLabFolders(fs, plan, made.value, labDir);
    if r.error.None? {
      if numExercises > 0 {
        r := MakeExpDirs(fs, plan, r.fs, Join(labDir, "prelab"), numExercises);
      } else {
        assert plan[4..] == [];
      }
    }
  }

  /** Step k of the scaffold, spelled out. */
  lemma ScaffoldPlanShape(cwd: Path, labNumber: int, n: int)
    ensures var plan := ScaffoldPlan(cwd, labNumber, n);
            && |plan| == 4 + Count(n)
            && plan[0] == DirStep(cwd, LabName(labNumber))
            && (forall k :: 1 <= k <= 3 ==> plan[k] == DirStep(LabDir(cwd, labNumber), LabFolders[k - 1]))
            && (forall k :: 4 <= k < |plan| ==> plan[k] == DirStep(PrelabDir(cwd, labNumber), ExpName(k - 3)))
  {
  }

  /** Lines 56-63 of the script: assets, prelab and scope inside the lab folder, each
      made only where nothing exists yet. On success the rest of the plan is left. */
  method MakeLabFolders(ghost fs0: Fs, ghost plan: seq<DirStep>, cur0: Fs, labDir: Path) returns (r: Run)
    requires |plan| >= 4
    requires forall k :: 1 <= k <= 3 ==> plan[k] == DirStep(labDir, LabFolders[k - 1])
    requires EnsureAll(fs0, plan) == EnsureAll(cur0, plan[1..])
    ensures r.error.Some? ==> r == EnsureAll(fs0, plan)
    ensures r.error.None? ==> EnsureAll(fs0, plan) == EnsureAll(r.fs, plan[4..])
  {
    var cur := cur0;
    var kinds := LabFolders;
    for k := 0 to |kinds|
      invariant EnsureAll(fs0, plan) == EnsureAll(cur, plan[1 + k..])
    {
      EnsureAllFrom(cur, plan, 1 + k);
      var made := EnsureDirIn(cur, labDir, kinds[k]);
      if made.Err? {
        return Run(cur, Some(made.error));
      }
      cur := made.value;
    }
    return Run(cur, None);
  }

  /** Lines 65-73 of the script: prelab/exp1 to prelab/expN, each made only where
      nothing exists yet. */
  method MakeExpDirs(ghost fs0: Fs, ghost plan: seq<DirStep>, cur0: Fs, prelabDir: Path, n: nat)
    returns (r: Run)
    requires |plan| == 4 + n
    requires forall k :: 4 <= k < |plan| ==> plan[k] == DirStep(prelabDir, ExpName(k - 3))
    requires EnsureAll(fs0, plan) == EnsureAll(cur0, plan[4..])
    ensures r == EnsureAll(fs0, plan)
  {
    var cur := cur0;
    for i := 1 to n + 1
      invariant EnsureAll(fs0, plan) == EnsureAll(cur, plan[3 + i..])
    {
      EnsureAllFrom(cur, plan, 3 + i);
      var made := EnsureDirIn(cur, prelabDir, ExpName(i));
      if made.Err? {
        return Run(cur, Some(made.error));
      }
      cur := made.value;
    }
    assert plan[|plan|..] == [];
    return Run(cur, None);
  }

  function Target(d: DirStep): Path { Join(d.parent, d.name) }

  function Targets(plan: seq<DirStep>): set<Path>
  {
    set k | 0 <= k < |plan| :: Target(plan[k])
  }

  lemma TargetsCons(plan: seq<DirStep>)
    requires plan != []
    ensures Targets(plan) == {Target(plan[0])} + Targets(plan[1..])
  {
    forall t | t in Targets(plan) ensures t in {Target(plan[0])} + Targets(plan[1..]) {
      var k :| 0 <= k < |plan| && Target(plan[k]) == t;
      if k > 0 {
        assert Target(plan[1..][k - 1]) == t;
      }
    }
    forall t | t in Targets(plan[1..]) ensures t in Targets(plan) {
      var k :| 0 <= k < |plan[1..]| && Target(plan[1..][k]) == t;
      assert Target(plan[k + 1]) == t;
    }
  }

  /** The steps only add directories, only the planned ones, and on success every
      planned directory is there afterwards. */
  lemma {:induction false} EnsureAllOnlyAdds(fs: Fs, plan: seq<DirStep>)
    ensures var r := EnsureAll(fs, plan);
            && r.fs.files == fs.files
            && fs.dirs <= r.fs.dirs <= fs.dirs + Targets(plan)
            && (r.error.None? ==> forall t :: t in Targets(plan) ==> Exists(r.fs, t))
    decreases |plan|
  {
    if plan != [] {
      TargetsCons(plan);
      var e := EnsureDirIn(fs, plan[0].parent, plan[0].name);
      if e.Ok? {
        EnsureAllOnlyAdds(e.value, plan[1..]);
      }
    }
  }

  /** When every planned directory is already there, the steps change nothing. */
  lemma {:induction false} EnsureAllPresent(fs: Fs, plan: seq<DirStep>)
    requires forall t :: t in Targets(plan) ==> Exists(fs, t)
    ensures EnsureAll(fs, plan) == Run(fs, None)
    decreases |plan|
  {
    if plan != [] {
      TargetsCons(plan);
      EnsureAllPresent(fs, plan[1..]);
    }
  }

  /** Step k's parent is a directory from the start or made by an earlier step. */
  predicate ParentReady(dirs: set<Path>, plan: seq<DirStep>, k: nat)
    requires k < |plan|
  {
    plan[k].parent in dirs || exists j :: 0 <= j < k && Target(plan[j]) == plan[k].parent
  }

  /** Every step's parent is ready when the step runs, and no planned path is a file. */
  predicate Feasible(dirs: set<Path>, files: set<Path>, plan: seq<DirStep>)
  {
    && (forall k :: 0 <= k < |plan| ==> ParentReady(dirs, plan, k))
    && (forall k :: 0 <= k < |plan| ==> Target(plan[k]) !in files)
  }

  /** The steps of a feasible plan all succeed and add exactly the planned directories. */
  lemma {:induction false} EnsureAllCreates(fs: Fs, plan: seq<DirStep>)
    requires Feasible(fs.dirs, fs.files.Keys, plan)
    ensures EnsureAll(fs, plan) == Run(Fs(fs.dirs + Targets(plan), fs.files), None)
    decreases |plan|
  {
    if plan != [] {
      TargetsCons(plan);
      var t := Target(plan[0]);
      var fs1 := Fs(fs.dirs + {t}, fs.files);
      assert ParentReady(fs.dirs, plan, 0);
      assert EnsureDirIn(fs, plan[0].parent, plan[0].name) == Ok(fs1) by {
        if Exists(fs, t) {
          assert fs.dirs + {t} == fs.dirs;
        }
      }
      var rest := plan[1..];
      forall k | 0 <= k < |rest| ensures ParentReady(fs1.dirs, rest, k) {
        assert rest[k] == plan[k + 1];
        assert ParentReady(fs.dirs, plan, k + 1);
        if rest[k].parent !in fs1.dirs {
          var j :| 0 <= j < k + 1 && Target(plan[j]) == plan[k + 1].parent;
          assert j != 0;
          assert Target(rest[j - 1]) == rest[k].parent;
        }
      }
      forall k | 0 <= k < |rest| ensures Target(rest[k]) !in fs1.files.Keys {
        assert rest[k] == plan[k + 1];
      }
      EnsureAllCreates(fs1, rest);
      assert fs1.dirs + Targets(rest) == fs.dirs + Targets(plan);
    }
  }

  /** Where each step of the scaffold makes its folder. */
  lemma ScaffoldStepTargets(cwd: Path, labNumber: int, n: int)
    ensures var plan := ScaffoldPlan(cwd, labNumber, n);
            var lab := LabDir(cwd, labNumber);
            && Target(plan[0]) == lab
            && Target(plan[1]) == Join(lab, "assets")
            && Target(plan[2]) == PrelabDir(cwd, labNumber)
            && Target(plan[3]) == ScopeDir(cwd, labNumber)
            && (forall k :: 1 <= k <= 3 ==> plan[k].parent == lab)
            && (forall k :: 4 <= k < |plan| ==> plan[k] == DirStep(PrelabDir(cwd, labNumber), ExpName(k - 3)))
  {
  }

  lemma ScaffoldTargets(cwd: Path, labNumber: int, n: int)
    ensures Targets(ScaffoldPlan(cwd, labNumber, n)) == ScaffoldDirs(cwd, labNumber, n)
  {
    var plan := ScaffoldPlan(cwd, labNumber, n);
    ScaffoldStepTargets(cwd, labNumber, n);
    TargetsSplit(plan);
    ExpTargets(cwd, labNumber, n);
  }

  /** The targets of the first four steps and of the others. */
  lemma TargetsSplit(plan: seq<DirStep>)
    requires 4 <= |plan|
    ensures Targets(plan) == {Target(plan[0]), Target(plan[1]), Target(plan[2]), Target(plan[3])} + Targets(plan[4..])
  {
    var m := 4;
    var fixed := {Target(plan[0]), Target(plan[1]), Target(plan[2]), Target(plan[3])};
    forall t | t in Targets(plan) ensures t in fixed + Targets(plan[m..]) {
      var k :| 0 <= k < |plan| && Target(plan[k]) == t;
      if k >= m {
        assert Target(plan[m..][k - m]) == t;
      }
    }
    forall t | t in Targets(plan[m..]) ensures t in Targets(plan) {
      var k :| 0 <= k < |plan[m..]| && Target(plan[m..][k]) == t;
      assert Target(plan[k + m]) == t;
    }
  }

  /** The steps after the fourth make exactly the experiment folders. */
  lemma ExpTargets(cwd: Path, labNumber: int, n: int)
    ensures Targets(ScaffoldPlan(cwd, labNumber, n)[4..]) == ExpDirs(PrelabDir(cwd, labNumber), n)
  {
    var rest := ScaffoldPlan(cwd, labNumber, n)[4..];
    var prelab := PrelabDir(cwd, labNumber);
    assert forall k :: 0 <= k < |rest| ==> rest[k] == DirStep(prelab, ExpName(k + 1));
    forall t | t in Targets(rest) ensures t in ExpDirs(prelab, n) {
      var k :| 0 <= k < |rest| && Target(rest[k]) == t;
      var i: nat := k + 1;
      assert t == Join(prelab, ExpName(i));
    }
    forall t | t in ExpDirs(prelab, n) ensures t in Targets(rest) {
      var i: nat :| 1 <= i <= n && t == Join(prelab, ExpName(i));
      assert Target(rest[i - 1]) == t;
    }
  }

  /** Where nothing in the way is a file, the scaffold succeeds and the directories
      afterwards are those before plus exactly the lab's own. */
  lemma ScaffoldCreatesExactly(fs: Fs, cwd: Path, labNumber: int, n: int)
    requires cwd in fs.dirs
    requires ScaffoldDirs(cwd, labNumber, n) !! fs.files.Keys
    ensures EnsureAll(fs, ScaffoldPlan(cwd, labNumber, n))
         == Run(Fs(fs.dirs + ScaffoldDirs(cwd, labNumber, n), fs.files), None)
  {
    var plan := ScaffoldPlan(cwd, labNumber, n);
    ScaffoldTargets(cwd, labNumber, n);
    ScaffoldStepTargets(cwd, labNumber, n);
    forall k | 0 <= k < |plan| ensures ParentReady(fs.dirs, plan, k) {
      if 1 <= k <= 3 {
        assert Target(plan[0]) == plan[k].parent;
      } else if k >= 4 {
        assert Target(plan[2]) == plan[k].parent;
      }
    }
    forall k | 0 <= k < |plan| ensures Target(plan[k]) !in fs.files.Keys {
      assert Target(plan[k]) in Targets(plan);
    }
    EnsureAllCreates(fs, plan);
  }

  /** Running the scaffold a second time, after one that succeeded, changes nothing. */
  lemma ScaffoldIdempotent(fs: Fs, cwd: Path, labNumber: int, n: int)
    requires EnsureAll(fs, ScaffoldPlan(cwd, labNumber, n)).error.None?
    ensures var r := EnsureAll(fs, ScaffoldPlan(cwd, labNumber, n));
            EnsureAll(r.fs, ScaffoldPlan(cwd, labNumber, n)) == r
  {
    var plan := ScaffoldPlan(cwd, labNumber, n);
    EnsureAllOnlyAdds(fs, plan);
    EnsureAllPresent(EnsureAll(fs, plan).fs, plan);
  }

  /** Without a positive number of exercises only the four fixed folders are planned. */
  lemma NoExperimentDirs(cwd: Path, labNumber: int, n: int)
    requires n <= 0
    ensures var lab := LabDir(cwd, labNumber);
            Targets(ScaffoldPlan(cwd, labNumber, n)) == {lab, Join(lab, "assets"), Join(lab, "prelab"), Join(lab, "scope")}
  {
    ScaffoldTargets(cwd, labNumber, n);
    assert ExpDirs(PrelabDir(cwd, labNumber), n) == {};
  }

  /** Different experiments get different folders. */
  lemma ExpDirsDistinct(prelab: Path, i: nat, j: nat)
    requires i != j
    ensures Join(prelab, ExpName(i)) != Join(prelab, ExpName(j))
  {
    var pre := DirPrefix(prelab);
    var a := ExpName(i);
    var b := ExpName(j);
    if Join(prelab, a) == Join(prelab, b) {
      assert pre + a == pre + b;
      assert a == (pre + a)[|pre|..];
      assert NatStr(i) == a[3..] == b[3..] == NatStr(j);
      NatStrInjective(i, j);
    }
  }

  /** After a scaffold that succeeded, the scope folder copy_scope_data is given exists. */
  lemma ScaffoldedScopeExists(fs: Fs, cwd: Path, labNumber: int, n: int)
    requires EnsureAll(fs, ScaffoldPlan(cwd, labNumber, n)).error.None?
    ensures Exists(EnsureAll(fs, ScaffoldPlan(cwd, labNumber, n)).fs, ScopeDir(cwd, labNumber))
  {
    var plan := ScaffoldPlan(cwd, labNumber, n);
    EnsureAllOnlyAdds(fs, plan);
    assert Target(plan[3]) == ScopeDir(cwd, labNumber);
  }

  // ---------------------------------------------------------------------------
  // The names on the notebooks

  /** f"{n} ({i})" */
  function Entry(name: string, id: string): string { name + " (" + id + ")" }

  function StudentEntries(names: seq<string>, ids: seq<string>): (r: seq<string>)
    requires |names| == |ids|
  {
    seq(|names|, k requires 0 <= k < |names| => Entry(names[k], ids[k]))
  }

  /** The entries in order, separated by ", ", except that the last two are
      separated by ", and ". */
  function SerialList(xs: seq<string>): string
  {
    if |xs| == 0 then ""
    else if |xs| == 1 then xs[0]
    else JoinWith(xs[..|xs| - 1], ", ") + ", and " + xs[|xs| - 1]
  }

  /** The entries so far, each followed by ", ". */
  function Leading(xs: seq<string>): string
  {
    if xs == [] then "" else JoinWith(xs, ", ") + ", "
  }

  lemma JoinWithSnoc(xs: seq<string>, k: nat, sep: string)
    requires 1 <= k < |xs|
    ensures JoinWith(xs[..k + 1], sep) == JoinWith(xs[..k], sep) + sep + xs[k]
  {
    assert xs[..k + 1][..k] == xs[..k];
  }

  /** Lines 83-91 of the script: an entry per student, each followed by ", ", except
      ", and " after the second-to-last and nothing after the last. */
  method NameString(names: seq<string>, ids: seq<string>) returns (r: string)
    requires |names| == |ids|
    ensures r == SerialList(StudentEntries(names, ids))
  {
    ghost var xs := StudentEntries(names, ids);
    r := "";
    for idx := 0 to |names|
      invariant idx + 2 <= |names| ==> r == Leading(xs[..idx])
      invariant idx + 1 == |names| ==> r == if idx == 0 then "" else JoinWith(xs[..idx], ", ") + ", and "
      invariant idx == |names| ==> r == SerialList(xs)
    {
      var suffix := "";
      if idx == |names| - 2 {
        suffix := ", and ";
      } else if idx != |names| - 1 {
        suffix := ", ";
      }
      ghost var before := r;
      r := r + Entry(names[idx], ids[idx]) + suffix;
      assert xs[idx] == Entry(names[idx], ids[idx]);
      if idx >= 1 && idx + 1 < |names| {
        JoinWithSnoc(xs, idx, ", ");
      }
      if idx + 1 == |names| && idx >= 1 {
        assert xs[..idx] == xs[..|xs| - 1];
      }
    }
  }

  /** One student is named alone; two are joined by ", and ". */
  lemma SerialListShort(a: string, b: string)
    ensures SerialList([a]) == a
    ensures SerialList([a, b]) == a + ", and " + b
  {
    assert [a, b][..1] == [a];
  }

  // ---------------------------------------------------------------------------
  // The notebook cells

  /** A notebook cell, by the part it plays; its text beyond the values it is built
      from is not modelled. */
  datatype Cell =
    | PrelabHeader(labNumber: int, names: string)
    | PrelabImports
    | ExperimentIntro(experiment: nat)
    | ExerciseClass(experiment: nat)
    | ReportHeader(labNumber: int, names: string)
    | TableOfContents(titles: seq<string>)
    | Abstract
    | ReportImports(labNumber: int)
    | ExperimentSection(experiment: nat)
    | SimulationCode(labNumber: int, experiment: nat)
    | LabExercises
    | Conclusion

  /** f'### - [Experiment {i}](#experiment-{i}):\n' */
  function Title(i: nat): string
  {
    "### - [Experiment " + NatStr(i) + "](#experiment-" + NatStr(i) + "):\n"
  }

  /** The comprehension on line 136 of the script: one line per experiment, in
      order, no two alike. */
  function ExperimentTitles(n: int): (r: seq<string>)
    ensures |r| == Count(n)
    ensures forall k :: 0 <= k < |r| ==> r[k] == Title(k + 1)
    ensures Distinct(r)
  {
    var r := seq(Count(n), k requires 0 <= k => Title(k + 1));
    assert Distinct(r) by {
      forall i, j | 0 <= i < j < |r| ensures r[i] != r[j] {
        TitlesDistinct(i + 1, j + 1);
      }
    }
    r
  }

  /** The length of the run of digits s starts with. */
  function LeadingDigits(s: string): nat
  {
    if s != [] && IsDigit(s[0]) then 1 + LeadingDigits(s[1..]) else 0
  }

  lemma {:induction false} LeadingDigitsOf(s: string, t: string)
    requires AllDigits(s) && t != [] && !IsDigit(t[0])
    ensures LeadingDigits(s + t) == |s|
  {
    if s == [] {
      assert s + t == t;
    } else {
      assert (s + t)[1..] == s[1..] + t;
      LeadingDigitsOf(s[1..], t);
    }
  }

  /** A run of digits ended by a character that is not one can be read back uniquely. */
  lemma DigitRunUnique(a: string, s1: string, t1: string, s2: string, t2: string)
    requires AllDigits(s1) && AllDigits(s2)
    requires t1 != [] && !IsDigit(t1[0]) && t2 != [] && !IsDigit(t2[0])
    requires a + s1 + t1 == a + s2 + t2
    ensures s1 == s2
  {
    assert s1 + t1 == (a + s1 + t1)[|a|..] == s2 + t2;
    LeadingDigitsOf(s1, t1);
    LeadingDigitsOf(s2, t2);
    assert s1 == (s1 + t1)[..|s1|] == (s2 + t2)[..|s2|] == s2;
  }

  /** Every experiment has its own table-of-contents line, so no two links collide. */
  lemma TitlesDistinct(i: nat, j: nat)
    requires i != j
    ensures Title(i) != Title(j)
  {
    var head := "### - [Experiment ";
    var tail := "](#experiment-";
    var end := "):\n";
    var si, sj := NatStr(i), NatStr(j);
    if Title(i) == Title(j) {
      var t1 := tail + si + end;
      var t2 := tail + sj + end;
      Regroup(head + si, tail, si, end);
      Regroup(head + sj, tail, sj, end);
      assert t1[0] == ']' && t2[0] == ']';
      DigitRunUnique(head, si, t1, sj, t2);
      NatStrInjective(i, j);
    }
  }

  /** Lines 93-130: a header with the names, the imports, then for each experiment
      in order a description and the class that runs its simulation. */
  method PrelabCells(labNumber: int, numExercises: int, names: string) returns (cells: seq<Cell>)
    ensures |cells| == 2 + 2 * Count(numExercises)
    ensures cells[0] == PrelabHeader(labNumber, names) && cells[1] == PrelabImports
    ensures forall k :: 0 <= k < Count(numExercises) ==>
              cells[2 + 2 * k] == ExperimentIntro(k + 1) && cells[3 + 2 * k] == ExerciseClass(k + 1)
  {
    cells := [PrelabHeader(labNumber, names), PrelabImports];
    if numExercises > 0 {
      for i := 1 to numExercises + 1
        invariant |cells| == 2 * i
        invariant cells[0] == PrelabHeader(labNumber, names) && cells[1] == PrelabImports
        invariant forall k :: 0 <= k < i - 1 ==>
                    cells[2 + 2 * k] == ExperimentIntro(k + 1) && cells[3 + 2 * k] == ExerciseClass(k + 1)
      {
        cells := cells + [ExperimentIntro(i)];
        cells := cells + [ExerciseClass(i)];
      }
    }
  }

  /** Lines 135-184: a header with the names, the table of contents listing every
      experiment, the abstract and the imports; then for each experiment in order
      its section, its simulation and its exercises; the conclusion last. */
  method MainLabCells(labNumber: int, numExercises: int, names: string) returns (cells: seq<Cell>)
    ensures |cells| == 5 + 3 * Count(numExercises)
    ensures cells[0] == ReportHeader(labNumber, names)
    ensures cells[1].TableOfContents? && |cells[1].titles| == Count(numExercises)
    ensures forall k :: 0 <= k < Count(numExercises) ==> cells[1].titles[k] == Title(k + 1)
    ensures cells[2] == Abstract && cells[3] == ReportImports(labNumber)
    ensures forall k :: 0 <= k < Count(numExercises) ==>
              && cells[4 + 3 * k] == ExperimentSection(k + 1)
              && cells[5 + 3 * k] == SimulationCode(labNumber, k + 1)
              && cells[6 + 3 * k] == LabExercises
    ensures cells[|cells| - 1] == Conclusion
  {
    var titles := ExperimentTitles(numExercises);
    cells := [ReportHeader(labNumber, names), TableOfContents(titles), Abstract, ReportImports(labNumber)];
    if numExercises > 0 {
      for i := 1 to numExercises + 1
        invariant |cells| == 4 + 3 * (i - 1)
        invariant cells[..4] == [ReportHeader(labNumber, names), TableOfContents(titles), Abstract, ReportImports(labNumber)]
        invariant forall k :: 0 <= k < i - 1 ==>
                    && cells[4 + 3 * k] == ExperimentSection(k + 1)
                    && cells[5 + 3 * k] == SimulationCode(labNumber, k + 1)
                    && cells[6 + 3 * k] == LabExercises
      {
        cells := cells + [ExperimentSection(i)];
        cells := cells + [SimulationCode(labNumber, i)];
        cells := cells + [LabExercises];
      }
    }
    cells := cells + [Conclusion];
  }

  // ---------------------------------------------------------------------------
  // The whole script

  datatype Notebooks = Notebooks(prelab: seq<Cell>, report: seq<Cell>)

  /** How the script ends: stopped by a check, in the copy-only branch, or after
      setting the lab up, with the state it leaves, the exception that stopped it if
      any, and the notebooks it generated. */
  datatype Outcome =
    | Usage(error: UsageError)
    | CopyOnlyRun
    | Setup(run: Run, notebooks: Option<Notebooks>)

  /** What copying the scope data into the scaffolded `scope` folder did: the copier
      lists the drive's exercise folders once each, and the run follows the copy plan
      over the listings `jl` and `cl` the copy saw, up to its first error. */
  ghost predicate ScopeCopied(fs: Fs, c: Copier, scope: Path, drive: string, log: seq<Step>,
                              jl: seq<seq<Path>>, cl: seq<seq<Path>>, run: Run)
  {
    var parts := c.exerciseParts;
    && c.driveLocation == DriveLocation(drive)
    && Distinct(parts)
    && (forall p :: p in parts <==> p in GlobSet(fs, DriveLocation(drive), PartPattern))
    && |jl| <= |parts| && |cl| <= |parts|
    && run == Replay(fs, log, DefaultOptions)
    && IsPrefix(log, CopyPlan(c, scope, DefaultOptions, jl, cl))
    && run == Replay(fs, CopyPlan(c, scope, DefaultOptions, jl, cl), DefaultOptions)
    && |log| >= 1 && log[0] == CheckDestination(scope)
    && AllPlanned(log, c, scope, DefaultOptions)
    && (run.error.None? ==>
          && log == CopyPlan(c, scope, DefaultOptions, jl, cl)
          && JpgParts(log) == parts
          && CsvsCovered(fs, c, scope, DefaultOptions, log, |parts|))
    && (run.error.Some? ==> StopsAtLast(fs, log, DefaultOptions))
    && Effect(fs, run.fs, c, scope, DefaultOptions)
  }

  /** The script from its checks on. Besides the outcome it returns the copier and
      its steps when it copied the oscilloscope data. */
  method RunSetup(fs: Fs, cwd: Path, a: Args)
    returns (o: Outcome, copier: Option<Copier>, log: seq<Step>, jl: seq<seq<Path>>, cl: seq<seq<Path>>)
    ensures Validate(a).Some? ==> o == Usage(Validate(a).value)
    ensures Validate(a).None? && a.copyOnly ==> o == CopyOnlyRun
    ensures Validate(a).None? && !a.copyOnly ==> o.Setup?
    ensures !o.Setup? ==> copier.None? && log == [] && jl == [] && cl == []
    ensures o.Setup? ==>
              var s := EnsureAll(fs, ScaffoldPlan(cwd, a.labNumber, a.numExercises));
              && (s.error.Some? || a.prelabOnly ==> o.run == s && copier.None?)
              && (s.error.None? && !a.prelabOnly ==>
                    && Exists(s.fs, ScopeDir(cwd, a.labNumber))
                    && (copier.None? <==> !Exists(s.fs, DriveLocation(a.driveName)))
                    && (copier.None? ==> o.run == Run(s.fs, Some(FileNotFound(DriveLocation(a.driveName)))))
                    && (copier.Some? ==>
                          ScopeCopied(s.fs, copier.value, ScopeDir(cwd, a.labNumber), a.driveName, log, jl, cl, o.run)))
    ensures o.Setup? ==> (o.notebooks.Some? <==> a.generateNotebooks && o.run.error.None?)
    ensures o.Setup? && o.notebooks.Some? ==>
              && StudentsPaired(a)
              && var n := Count(a.numExercises);
              && var names := SerialList(StudentEntries(a.studentNames.value, a.studentIds.value));
              && |o.notebooks.value.prelab| == 2 + 2 * n
              && |o.notebooks.value.report| == 5 + 3 * n
              && o.notebooks.value.prelab[0] == PrelabHeader(a.labNumber, names)
              && o.notebooks.value.report[0] == ReportHeader(a.labNumber, names)
  {
    copier := None;
    log, jl, cl := [], [], [];
    var v := Validate(a);
    if v.Some? {
      return Usage(v.value), copier, log, jl, cl;
    }
    if a.copyOnly {
      return CopyOnlyRun, copier, log, jl, cl;
    }
    var s := Scaffold(fs, cwd, a.labNumber, a.numExercises);
    if s.error.Some? {
      return Setup(s, None), copier, log, jl, cl;
    }
    var run := s;
    if !a.prelabOnly {
      ScaffoldedScopeExists(fs, cwd, a.labNumber, a.numExercises);
      var made := NewCopier(s.fs, a.driveName);
      if made.Err? {
        return Setup(Run(s.fs, Some(made.error)), None), copier, log, jl, cl;
      }
      copier := Some(made.value);
      run, log, jl, cl := CopyScopeData(s.fs, made.value, Join(LabDir(cwd, a.labNumber), "scope"), DefaultOptions);
      if run.error.Some? {
        return Setup(run, None), copier, log, jl, cl;
      }
    }
    if a.generateNotebooks {
      var names := NameString(a.studentNames.value, a.studentIds.value);
      var prelab := PrelabCells(a.labNumber, a.numExercises, names);
      var report := MainLabCells(a.labNumber, a.numExercises, names);
      o := Setup(run, Some(Notebooks(prelab, report)));
    } else {
      o := Setup(run, None);
    }
  }
}
