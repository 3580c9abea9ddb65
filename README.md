# ECE65 lab setup, modelled in Dafny

ECE65-Lab-Setup prepares the working folder for a lab report in the ECE 65
course. It has two parts, and this project models both over an abstract
filesystem: a set of directory paths plus a map from file path to contents.

- **The oscilloscope copier** (`helper.py`, `OscilloscopeDataCopier`) copies
  samples off a Tektronix oscilloscope's flash drive. The user renames each
  sample folder on the drive to `E<N>P<M>`. The copier:
  - finds those folders under `/Volumes/<drive>`;
  - renames each CSV to `<folder>.<last seven characters of its name>`,
    lower-cased;
  - takes the first JPG that glob lists in the folder and names it
    `<folder>.jpg`, lower-cased; a folder without one raises IndexError;
  - copies them into a destination. The CSVs go into the destination itself or
    into one folder per sample, and the JPGs go into `jpgs/`.

  Under `softrun` nothing is copied. At the end of its pass, `jpgs/` and, with
  `create_folders`, each part's folder are removed with `os.rmdir`, whether or
  not this run made them.
- **The setup script** (`setup_lab.py`):
  1. checks its command-line values;
  2. creates `Lab N/{assets,prelab,scope}` and `Lab N/prelab/exp1..expN`, each
     only where nothing exists yet;
  3. copies the oscilloscope data into `Lab N/scope`, unless in prelab-only
     mode;
  4. builds the student list shown on the notebooks, e.g.
     `"A (1), B (2), and C (3)"`;
  5. builds the cell lists of the prelab notebook and of the lab-report
     notebook.

Modules:

| file | module | contents |
|---|---|---|
| `wrappers.dfy` | `Wrappers` | `Option`, `Result` |
| `strings.dfy` | `Strings` | ASCII `str.lower`, `s[-k:]`, `str.split` and `str.join` on one character, the decimal text of an int |
| `paths.dfy` | `Paths` | `os.path.join`, `os.path.basename`, `location.split("/")[-2]`, "lies below" |
| `filesystem.dfy` | `FileSystem` | the filesystem value; `os.path.exists`, `os.makedirs`, `os.rmdir`, `shutil.copy` |
| `glob.dfy` | `Glob` | `glob(join(d, pattern))` for patterns made of `*` and literal characters |
| `scope_copier.dfy` | `ScopeCopier` | `File`, `CSVFile`, `JPGFile`, the copier's constructor, `copy_scope_data` |
| `lab_setup.dfy` | `LabSetup` | the script's checks, scaffold, name list, cell lists and modes |

`copy_scope_data` takes its folder listings from `glob`, whose order the model
leaves open, so it is a method that returns the steps it took as well as the
run. On the steps:

- `ScopeCopier.Replay` is the function that replays the steps in order.
- The method's contract ties its run to `Replay` of those steps.
- It also states what the step list holds. The steps are a prefix of
  `ScopeCopier.CopyPlan` over the listings glob returned, where:
  - the destination is checked first;
  - the JPG block comes next: `jpgs/`, then one step per part in the copier's
    order, then the softrun removal;
  - the CSV loop comes last: per part in order, its folder, one save per
    listed CSV in listing order, then the softrun removal.
- The run is the replay of the whole plan, so every step after the first
  that raises is never taken.
- `ScopeCopier.ReplayPlanned` proves what any such list does to the filesystem.

A raised Python exception ends a run. The state at that point is kept, together
with the error. Parameters stand in for the script's environment:
- the current directory (`cwd`, from `os.getcwd()`);
- the parsed command line (`LabSetup.Args`);
- the filesystem.

## Model

| member | source | states |
|---|---|---|
| Strings.Lower | helper.py:154 | the result is as long as the input and lowers each character in place |
| Strings.LowerHasNoUpper | helper.py:170 | a lowered string has no upper-case ASCII letter |
| Strings.LowerConcat | helper.py:154 | lowering a concatenation lowers each side |
| Strings.LowerKeepsNonLetter | helper.py:154 | lowering neither adds nor removes a character that is not a letter, such as '.' or '/' |
| Strings.TakeLast | helper.py:154 | `s[-k:]` has length min(k, \|s\|) and is a suffix of s |
| Strings.NatStr | setup_lab.py:67 | the decimal text is non-empty and all digits, and starts with '0' only for zero, so it has no leading zeros |
| Strings.ParseNatStr | setup_lab.py:67 | reading the decimal text back gives the number |
| Strings.NatStrInjective | setup_lab.py:67 | different numbers have different decimal texts |
| Strings.IntStr | setup_lab.py:46 | the text of an int is non-empty and has no '/'; it reads back as the number, after a '-' for a negative one |
| Strings.Split | helper.py:154 | `str.split` returns at least one piece |
| Strings.SplitPiecesNoSep | helper.py:154 | no piece of a split holds the separator |
| Strings.JoinSplit | helper.py:154 | joining the pieces with the separator gives the string back |
| Strings.SplitNoSep | helper.py:154 | a string without the separator is its own single piece |
| Strings.SplitAround | helper.py:154 | splitting at one separator splits each side on its own |
| Strings.SplitCount | helper.py:154 | there are two or more pieces exactly when the separator occurs, so `[-2]` raises IndexError exactly when there is no '/' |
| Paths.DirPrefix | helper.py:129 | `os.path.join`'s first part: the directory itself when it is empty or ends in '/', and otherwise the directory with one '/' added |
| Paths.JoinCases | setup_lab.py:47 | `os.path.join(a, b)` is b for an absolute b, a + b when a is empty or ends in '/', and a + "/" + b otherwise; it always ends in b |
| Paths.Basename | helper.py:110 | the basename has no '/' and is no longer than the path |
| Paths.BasenameIsLastSuffix | helper.py:110 | the basename is the suffix after the last '/' |
| Paths.LastPieceIsBasename | helper.py:110 | the last piece of `split("/")` is `os.path.basename` |
| Paths.BasenameOfJoin | helper.py:226 | the basename of `join(d, n)` is n for a component n |
| Paths.ParentComponent | helper.py:154 | `split("/")[-2]` exists exactly when the path has a '/', and it has no '/' |
| Paths.ParentComponentOfJoin | helper.py:170 | for a file directly in folder d, `split("/")[-2]` is the basename of d |
| Paths.ChildName | helper.py:185 | a listed name is a non-empty component whose join under the folder gives the path back |
| Paths.ChildNameOfJoin | helper.py:185 | a component joined under a folder is listed there under its own name |
| Paths.JoinIsUnder | helper.py:226 | joining a relative name gives a path below the folder |
| Paths.UnderTransitive | helper.py:129 | below-ness is transitive |
| FileSystem.MakeDirIn | setup_lab.py:52 | `os.makedirs` succeeds exactly when the parent is a directory and the path is free; then it adds that one directory and keeps the files |
| FileSystem.EnsureDirIn | setup_lab.py:49-52 | `if not exists: makedirs` leaves an existing path alone, fails only when the path is free and the parent is not a directory, and otherwise adds at most that directory |
| FileSystem.RemoveDir | helper.py:219-220 | `os.rmdir` succeeds exactly on an empty directory and then removes only it |
| FileSystem.RemoveUndoesMake | helper.py:213-220 | removing a directory just made, with nothing below it, restores the filesystem |
| FileSystem.CopyTarget | helper.py:129 | `shutil.copy` writes to `join(dir, name)`, or, when that is a directory, directly inside it under the source's basename |
| FileSystem.Copy | helper.py:129 | `shutil.copy` succeeds exactly when the source is a file, the target is neither the source nor a directory, and the target's folder exists; the target alone gets the source's contents |
| FileSystem.CopyChangesOnlyTarget | helper.py:129 | no file but the copy's target changes |
| Glob.Match | helper.py:185 | fnmatch: a pattern without '*' matches only itself, and "*" matches every name |
| Glob.GlobSetMembers | helper.py:185 | `glob(join(d, pat))` lists exactly the entries `join(d, n)` for a non-empty name n without '/' that the pattern matches |
| Glob.GlobPaths | helper.py:185 | `glob` returns each listed path once, and nothing else |
| Glob.SuffixPattern | helper.py:229 | `*.CSV` and `*.JPG` match exactly the names with that ending |
| Glob.SuffixGlob | helper.py:229 | glob with `*.CSV` or `*.JPG` lists exactly the names with that ending that are not hidden (do not start with '.') |
| Glob.MatchPartPattern | helper.py:185 | `E*P*` matches exactly the names that start with 'E' and have a 'P' after it |
| ScopeCopier.NewFile | helper.py:108-112 | `File(location)` raises FileNotFoundError exactly when the path is absent, and is otherwise named by its last path piece |
| ScopeCopier.RenamedCsv | helper.py:153-154 | the renamed CSV is lower(parent) + "." + lower(last ≤7 characters); its length is \|parent\|+1+min(7,\|base\|); it is a component with no upper-case letter |
| ScopeCopier.DottedLower | helper.py:154 | lower(a + "." + b) is lower(a) + "." + lower(b), and has no '/' when neither side has one |
| ScopeCopier.NewCsvFile | helper.py:142-154 | a missing path raises FileNotFoundError; with rename and no '/' it raises IndexError; otherwise the name is the basename without rename, or the renamed name with it |
| ScopeCopier.NewJpgFile | helper.py:161-170 | same errors; the name is lower(parent) + ".jpg" and has no upper-case letter |
| ScopeCopier.Save | helper.py:114-129 | a missing destination raises before anything; softrun changes nothing; otherwise only the copy's target changes, to the source's contents |
| ScopeCopier.SaveCopiesToJoin | helper.py:128-129 | in the ordinary case the file lands at `join(destination, name)` with the source's contents |
| ScopeCopier.JpgNameIgnoresBasename | helper.py:163-170 | two JPGs in the same folder get the same name, whatever they were called |
| ScopeCopier.CsvNameInFolder | helper.py:144-154 | a CSV n in folder d is renamed to lower(basename d) + "." + lower(last 7 of n), and keeps n without rename |
| ScopeCopier.NewCopier | helper.py:172-187 | a missing drive raises FileNotFoundError; otherwise the drive is `/Volumes/<name>` and the parts are exactly the drive's `E*P*` entries, each once |
| ScopeCopier.ExercisePartShape | helper.py:185 | every part sits directly on the drive, does not end in '/', and is named E…P… |
| ScopeCopier.Apply | helper.py:207-233 | one step of copy_scope_data: a step that raises changes nothing, no step removes a file, only the folder steps change folders, a made folder exists afterwards and a removed one is gone |
| ScopeCopier.Replay | helper.py:189-233 | running steps in order never removes a file |
| ScopeCopier.ReplaySnoc | helper.py:189-233 | replaying one more step continues from where the earlier steps stopped |
| ScopeCopier.ReplayStops | helper.py:189-233 | once a step raises, the steps after it change nothing: the run of the longer list is the run of the shorter |
| ScopeCopier.ReplayPrefixStops | helper.py:189-233 | a prefix of a plan that raises has the same run as the whole plan |
| ScopeCopier.JpgPartsSnoc | helper.py:216-218 | a JPG save step adds its part to the parts whose JPG was saved, and any other step adds none |
| ScopeCopier.SaveTargetUnder | helper.py:129 | a saved file lands below the folder it is saved into |
| ScopeCopier.EffectCompose | helper.py:189-233 | the allowed effect of copy_scope_data composes over successive steps |
| ScopeCopier.SaveEffect | helper.py:114-129 | saving a file into the destination, or into a folder below it, is an allowed effect |
| ScopeCopier.EnsureDirEffect | helper.py:213-215 | making a planned folder is an allowed effect |
| ScopeCopier.ApplyPlanned | helper.py:189-233 | every planned step has an allowed effect and keeps the filesystem valid |
| ScopeCopier.ReplayPlanned | helper.py:189-233 | any list of planned steps only creates, or under softrun removes, planned folders, removes no file, writes only below the destination, and under softrun writes nothing |
| ScopeCopier.Perform | helper.py:189-233 | one planned step appended to the steps so far, with the run equal to their replay and, when nothing raised, the bookkeeping kept; every step before the new one had succeeded |
| ScopeCopier.JpgStep | helper.py:216-218 | a part's JPG step saves the first entry of its `*.JPG` listing into `dest/jpgs`, or, when the listing is empty, raises IndexError and changes nothing |
| ScopeCopier.JpgStepPlanned | helper.py:216-218 | the JPG step taken from a part's true listing is a step the copier may take |
| ScopeCopier.JpgListingsGrow | helper.py:216-217 | taking one more part's listing keeps what the earlier listings said |
| ScopeCopier.CopyJpgs | helper.py:210-220 | when nothing raises, the steps are exactly the JPG block: `dest/jpgs`, one save per part in the copier's order, each of the first entry of the part's `*.JPG` listing, then the softrun removal; every part's JPG is saved; `dest/jpgs` exists afterwards, or under softrun is gone; when a step raises, the steps are a prefix of the block that ends at that step, every earlier step having succeeded, with IndexError when a part's listing was empty |
| ScopeCopier.EndJpgs | helper.py:219-220 | under softrun `dest/jpgs` is removed and nothing else changes, and when that raises it is the last step; otherwise nothing happens |
| ScopeCopier.SaveJpgs | helper.py:216-218 | the loop over the parts: when nothing raises, one save per part in order, of the first entry of the part's listing taken where the run stood; otherwise it stops at the part that raised, every earlier save having succeeded and no step coming after it, with IndexError when that part's listing was empty |
| ScopeCopier.SaveOneJpg | helper.py:216-218 | one turn of that loop: the next part's listing and step |
| ScopeCopier.JpgTurnGoes | helper.py:216-218 | a turn whose save succeeds extends the loop's steps, the parts saved and the listings by the next part |
| ScopeCopier.JpgTurnStops | helper.py:216-218 | a turn that raises ends the loop, with IndexError for an empty listing |
| ScopeCopier.StartPart | helper.py:226-228 | a part's CSV pass begins by making `join(dest, basename(part))` when create_folders asks for it; afterwards that folder exists, and when making it raises no further step is taken |
| ScopeCopier.EndPart | helper.py:232-233 | a part's CSV pass ends, under softrun with create_folders, by removing that folder and nothing else, and when that raises it is the last step; otherwise nothing happens |
| ScopeCopier.CopyPartCsvs | helper.py:226-233 | one part's pass: its folder when asked, then one save per entry of its `*.CSV` listing in listing order, then the softrun removal; when nothing raises, every CSV the part held is saved, and the folder exists afterwards or, under softrun, is gone; when a step raises it is the last one taken |
| ScopeCopier.SaveCsvs | helper.py:229-231 | the inner loop: every entry of the part's `*.CSV` listing, in order, saved into the part's target folder, stopping at the first save that raises: every earlier save succeeded and nothing follows it; no folder changes |
| ScopeCopier.SaveOneCsv | helper.py:230-231 | one listed CSV saved into the part's target folder, every step before it having succeeded |
| ScopeCopier.AllSaved | helper.py:229-231 | once every listed entry has a step, so does every CSV the part held at the start |
| ScopeCopier.AllListedSaved | helper.py:229-231 | saving every entry of a listing saves every CSV file of the part |
| ScopeCopier.CsvPassSnoc | helper.py:225 | the CSV loop over one part more adds that part's pass at the end |
| ScopeCopier.CsvListingsGrow | helper.py:229 | taking one more part's listing keeps what the earlier listings said |
| ScopeCopier.CopyCsvs | helper.py:225-233 | when nothing raises, the steps are one pass per part in the copier's order and every CSV of every part is saved; otherwise they are a prefix of those passes that ends at the step that raised, every earlier step having succeeded |
| ScopeCopier.CopyNextPart | helper.py:225-233 | one turn of the loop over the parts: the next part's pass |
| ScopeCopier.CoveredGrows | helper.py:225 | covering one more part extends the coverage of the earlier ones |
| ScopeCopier.PartCoveredGrows | helper.py:229 | a part stays covered as steps are appended |
| ScopeCopier.CopyScopeData | helper.py:189-233 | the run is the replay of the whole plan and of the steps taken, which are a prefix of it containing only planned steps: check the destination (raising before any other step when it is missing), the JPG block only when asked, then the CSV loop; on success the steps are the whole plan, every part's JPG is saved in order when asked and none otherwise, and every CSV of every part is saved; when a step raises, it is the last one taken and every earlier step succeeded; the filesystem changes only as ReplayPlanned allows |
| LabSetup.Validate | setup_lab.py:29-39 | the checks pass exactly when `-g` comes with names and ids of equal, non-zero length and `-p` is not combined with `-c`; each error is reported exactly when its check is the first to fail, in the script's order: missing names or ids with `-g`, then a length mismatch, then `-p` with `-c` |
| LabSetup.PrelabWithCopyRejected | setup_lab.py:38-39 | `-p` with `-c` never gets past the checks |
| LabSetup.LabName | setup_lab.py:46 | `Lab N` is one non-empty folder name |
| LabSetup.LabNameReadsBack | setup_lab.py:46 | `Lab N` starts with "Lab " and the rest reads back as N, after a '-' for a negative N |
| LabSetup.ExpName | setup_lab.py:67 | `exp i` is one non-empty folder name |
| LabSetup.ExpNameReadsBack | setup_lab.py:67 | `exp i` starts with "exp" and the rest is digits that read back as i |
| LabSetup.Scaffold | setup_lab.py:46-73 | the script's folder creation is the planned steps applied in order, stopping at the first that raises |
| LabSetup.MakeLabFolders | setup_lab.py:56-63 | assets, prelab and scope are made in order inside the lab folder |
| LabSetup.MakeExpDirs | setup_lab.py:65-73 | exp1 … expN are made in order inside prelab |
| LabSetup.ScaffoldPlanShape | setup_lab.py:46-73 | the plan is the lab folder, its three sub-folders, then one folder per experiment |
| LabSetup.ScaffoldStepTargets | setup_lab.py:46-73 | where each step makes its folder |
| LabSetup.ScaffoldTargets | setup_lab.py:46-73 | the planned folders are exactly `Lab N`, its assets, prelab and scope, and `prelab/exp i` for 1 ≤ i ≤ num_exercises |
| LabSetup.ExpTargets | setup_lab.py:65-73 | the steps after the fourth make exactly the experiment folders |
| LabSetup.EnsureAllOnlyAdds | setup_lab.py:49-73 | the scaffold keeps every file and directory, adds only planned folders, and on success all of them exist |
| LabSetup.EnsureAllPresent | setup_lab.py:49-73 | when every planned folder exists the scaffold changes nothing |
| LabSetup.EnsureAllCreates | setup_lab.py:49-73 | when each parent is ready in time and no planned path is a file, every step succeeds and exactly the planned folders are added |
| LabSetup.ScaffoldCreatesExactly | setup_lab.py:46-73 | with the current directory present and no file in the way, the directories afterwards are those before plus exactly the lab's folders |
| LabSetup.ScaffoldIdempotent | setup_lab.py:46-73 | a second scaffold after a successful one changes nothing |
| LabSetup.NoExperimentDirs | setup_lab.py:65 | with num_exercises ≤ 0 only the four fixed folders are planned |
| LabSetup.ExpDirsDistinct | setup_lab.py:66-67 | different experiments get different folders |
| LabSetup.ScaffoldedScopeExists | setup_lab.py:75-78 | after a successful scaffold, the scope folder the copy is pointed at exists |
| LabSetup.NameString | setup_lab.py:83-91 | the name string is the entries in order, separated by ", ", with ", and " before the last |
| LabSetup.SerialListShort | setup_lab.py:83-91 | one student is named alone; two give "A, and B" |
| LabSetup.TitlesDistinct | setup_lab.py:136 | different experiments get different table-of-contents lines |
| LabSetup.ExperimentTitles | setup_lab.py:136 | one title per experiment, the k-th for experiment k, no two alike |
| LabSetup.PrelabCells | setup_lab.py:93-130 | the prelab has 2 + 2·n cells: the header with the names, the imports, then per experiment in order a description and a simulation class |
| LabSetup.MainLabCells | setup_lab.py:135-184 | the report has 5 + 3·n cells: header, a table of contents holding the n titles `### - [Experiment i](#experiment-i):` in order, abstract, imports, three cells per experiment in order, and the conclusion last |
| LabSetup.RunSetup | setup_lab.py:29-184 | a failed check stops everything; copy-only does no scaffolding and builds no notebook; otherwise the scaffold runs, then, unless prelab-only, the copier reads the drive (a missing drive raises) and copies into `Lab N/scope` with copy_scope_data's defaults, its parts being the drive's `E*P*` entries once each and its run the replay of the copy plan, which on success saves every part's JPG in order and every CSV and otherwise ends at the step that raised; notebooks are built only with `-g` and only when nothing raised |

## Left out

- `get_scope_data`, `plot_vi_vo` and `Exercise` in `helper.py` are not modelled. They read CSVs with numpy, plot with matplotlib and parse LTSpice output through a library whose code is not part of this model.
- All `print` and verbose output is left out, and so is the `verbose` flag.
- argparse's parsing, its exit on `parser.error` and its help texts are left out. The checks are a function from the parsed values to an error or none.
- The copy-only branch (setup_lab.py:41-43) is not modelled. It passes the boolean `copy_only` as the destination path, so what it does rests on how Python's `os.path` treats a bool. `LabSetup.RunSetup` stops with `CopyOnlyRun` there, so this branch does no scaffolding and builds no notebook.
- nbformat's notebook JSON and the text of each cell are left out. Cells are modelled by their role and by the values they are built from (lab number, names, experiment number, the table-of-contents titles).
- Writing the notebooks and removing an old report (setup_lab.py:133, 188-190) are left out. So is the final "Done."
- `glob`'s order, and the case-insensitivity of the macOS filesystem, are left out.
- Glob patterns are matched with `*` and literal characters only. Those are the only glob characters in the patterns the code writes (`E*P*`, `*.JPG`, `*.CSV`). `glob` would also expand `*`, `?` and `[` inside the directory part: the drive name and the exercise folders. The model treats that part literally, so it assumes those names hold none of these characters.
- Paths are compared as exact text, with no normalisation. `ECE65-DATA/` and `ECE65-DATA`, or a path with `//` or `.`, count as different paths.
- `os.makedirs` is modelled as creating one level whose parent must be a directory. At every call in these scripts the parent has already been made or checked.
- `shutil.copy` is modelled on contents only: permission bits and symbolic links are left out.
- Strings.Lower: ASCII lowering only. Non-ASCII letters are left unchanged by the model, unlike Python's `str.lower`. The oscilloscope's folder and file names are ASCII.
- LabSetup.NameString: requires as many ids as names. The checks just before it guarantee this, so `zip`'s truncation is not modelled.
- ScopeCopier.CopyScopeData: the run depends on the order in which `glob` lists entries, and the model leaves that order open. So the method returns the listings it used (`jl`, `cl`) beside the steps, and its contract states the run as the replay of `CopyPlan` over those listings, each listing taken where the run stood. The plan fixes the order of the steps: the JPG block before the CSV loop, the parts in the copier's order, and each listed CSV saved once in listing order.
- Under softrun, `os.rmdir` removes `jpgs` or a part folder even when it existed before the run, exactly as the code does. The folder is removed when empty, and the run raises when it is not. `ScopeCopier.Effect` therefore allows planned folders to disappear under softrun.
- The current directory is a parameter. The lemmas that promise success require it to exist, as `os.getcwd()` guarantees.
