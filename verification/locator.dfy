/**
  The project locator of `project_paths.py`: the `ProjectPaths` class finds a
  project folder by a first-match search over candidate base directories, then
  builds (and creates) paths under its `01_Datasets`, `02_Results` and
  `03_Figures` folders. The filesystem is threaded through explicitly; the
  informational `print` calls are not modelled.
 */
module Locator {
  import opened Wrappers
  import opened Paths

  const DatasetsFolder := "01_Datasets"
  const ResultsFolder := "02_Results"
  const FiguresFolder := "03_Figures"
  const RawFolder := "raw"
  const ProcessedFolder := "processed"
  const PlotsFolder := "plots"

  /** The `FileNotFoundError` raised when no candidate holds the project. */
  datatype Error = ProjectNotFound(project: string)

  /**
    A resolved project. The derived roots are computed from `basePath`, so a
    value of this type is always as the constructor left it.
   */
  datatype ProjectPaths = ProjectPaths(project: string, basePath: Path) {
    function DatasetsRoot(): Path { Join(basePath, [DatasetsFolder]) }
    function ResultsRoot(): Path { Join(basePath, [ResultsFolder]) }
    function FiguresRoot(): Path { Join(basePath, [FiguresFolder]) }
  }

  /**
    The bases searched: the caller's list when it is given and non-empty,
    otherwise the default list (whose environment-specific contents are a
    parameter here).
   */
  function CandidateBases(searchPaths: Option<seq<Path>>, defaults: seq<Path>): seq<Path> {
    if searchPaths.Some? && |searchPaths.value| > 0 then searchPaths.value else defaults
  }

  /** `base / project`. */
  function ProjectDir(base: Path, project: string): Path {
    Join(base, [project])
  }

  /** Candidate `i` holds the project and no earlier candidate does. */
  predicate FirstMatchAt(fs: FileSystem, bases: seq<Path>, project: string, i: int) {
    && 0 <= i < |bases|
    && Exists(fs, ProjectDir(bases[i], project))
    && forall j | 0 <= j < i :: !Exists(fs, ProjectDir(bases[j], project))
  }

  /**
    `_find_project_path`: the first `base / project` that exists, or the
    not-found error after every candidate has been tried. The filesystem is
    only an input: resolution creates nothing.
   */
  function FindProjectPath(fs: FileSystem, bases: seq<Path>, project: string): (r: Result<Path, Error>)
    ensures r.Success? ==>
              exists i :: FirstMatchAt(fs, bases, project, i) && r.value == ProjectDir(bases[i], project)
    ensures r.Failure? <==> forall i | 0 <= i < |bases| :: !Exists(fs, ProjectDir(bases[i], project))
    ensures r.Failure? ==> r.error == ProjectNotFound(project)
  {
    if |bases| == 0 then
      Failure(ProjectNotFound(project))
    else if Exists(fs, ProjectDir(bases[0], project)) then
      assert FirstMatchAt(fs, bases, project, 0);
      Success(ProjectDir(bases[0], project))
    else
      var r := FindProjectPath(fs, bases[1..], project);
      if r.Success? then
        var i :| FirstMatchAt(fs, bases[1..], project, i) && r.value == ProjectDir(bases[1..][i], project);
        assert FirstMatchAt(fs, bases, project, i + 1);
        r
      else
        assert forall i | 1 <= i < |bases| :: bases[i] == bases[1..][i - 1];
        r
  }

  /**
    `ProjectPaths(project, search_paths)`: either a resolved project whose base
    is the first candidate holding it, or the not-found error and no object.
   */
  function NewProjectPaths(fs: FileSystem, project: string, searchPaths: Option<seq<Path>>,
                           defaults: seq<Path>): (r: Result<ProjectPaths, Error>)
    ensures var bases := CandidateBases(searchPaths, defaults);
            r.Success? ==>
              && r.value.project == project
              && (exists i :: FirstMatchAt(fs, bases, project, i)
                              && r.value.basePath == ProjectDir(bases[i], project))
    ensures var bases := CandidateBases(searchPaths, defaults);
            r.Failure? <==> forall i | 0 <= i < |bases| :: !Exists(fs, ProjectDir(bases[i], project))
    ensures r.Failure? ==> r.error == ProjectNotFound(project)
    ensures r.Success? ==>
              && r.value.DatasetsRoot() == r.value.basePath + ["01_Datasets"]
              && r.value.ResultsRoot() == r.value.basePath + ["02_Results"]
              && r.value.FiguresRoot() == r.value.basePath + ["03_Figures"]
  {
    match FindProjectPath(fs, CandidateBases(searchPaths, defaults), project)
    case Success(base) =>
      JoinPlain(base, DatasetsFolder);
      JoinPlain(base, ResultsFolder);
      JoinPlain(base, FiguresFolder);
      Success(ProjectPaths(project, base))
    case Failure(e) => Failure(e)
  }

  /** `if subfolder:`: an absent or empty subfolder is not appended. */
  function SubfolderPart(subfolder: Option<string>): seq<string> {
    if subfolder.Some? && subfolder.value != "" then [subfolder.value] else []
  }

  /**
    `_get_subfolder_path(root, *parts, subfolder=..., create=...)`: the path
    `root / parts... [/ subfolder]`, made with all its ancestors when `create`
    holds. Only that path's prefixes are added, and an existing path leaves
    the filesystem untouched.
   */
  function GetSubfolderPath(fs: FileSystem, root: Path, parts: seq<string>,
                            subfolder: Option<string>, create: bool): (r: (Path, FileSystem))
    requires WellFormed(fs)
    ensures r.0 == Join(root, parts + SubfolderPart(subfolder))
    ensures WellFormed(r.1)
    ensures create ==> Exists(r.1, r.0) && r.1.paths == fs.paths + Prefixes(r.0)
    ensures r.1.files == fs.files
    ensures !create || Exists(fs, r.0) ==> r.1 == fs
  {
    var path := Join(root, parts);
    var path := if subfolder.Some? && subfolder.value != "" then Join(path, [subfolder.value]) else path;
    JoinJoin(root, parts, SubfolderPart(subfolder));
    assert parts + [] == parts;
    var fs := if create then MkdirParents(fs, path) else fs;
    (path, fs)
  }

  /**
    The `processed` argument: `"both"`, or a value read for its truth
    (`True`/`False` or any other string, where only `""` is false).
   */
  datatype ProcessedArg = Flag(b: bool) | Str(s: string)

  /** The three ways `get_datasets_path` can answer. */
  datatype DatasetsMode = Raw | Processed | Both

  function ModeOf(processed: ProcessedArg): (m: DatasetsMode)
    ensures m == Both <==> processed == Str("both")
    ensures m == Raw <==> processed == Flag(false) || processed == Str("")
  {
    match processed
    case Str(s) => if s == "both" then Both else if s != "" then Processed else Raw
    case Flag(b) => if b then Processed else Raw
  }

  /** One dataset folder, or the raw and processed folders as a pair (raw first). */
  datatype DatasetsPath = Single(path: Path) | Pair(raw: Path, processed: Path)

  /** Where `get_datasets_path` puts raw data, relative to the project's base. */
  function RawDir(pp: ProjectPaths, parts: seq<string>): Path {
    pp.basePath + ["01_Datasets", "raw"] + Segments(parts)
  }

  /** Where `get_datasets_path` puts processed data, relative to the project's base. */
  function ProcessedDir(pp: ProjectPaths, parts: seq<string>): Path {
    pp.basePath + ["01_Datasets", "processed"] + Segments(parts)
  }

  /** `datasets_root / kind / parts...` written out from the project's base. */
  lemma DatasetsDir(pp: ProjectPaths, kind: string, parts: seq<string>)
    requires !Ignorable(kind)
    ensures Join(pp.DatasetsRoot(), [kind] + parts + SubfolderPart(None))
            == pp.basePath + ["01_Datasets", kind] + Segments(parts)
  {
    JoinPlain(pp.basePath, DatasetsFolder);
    SegmentsCons(kind, parts);
    assert [kind] + parts + [] == [kind] + parts;
  }

  lemma DatasetsDirs(pp: ProjectPaths, parts: seq<string>)
    ensures Join(pp.DatasetsRoot(), [RawFolder] + parts + SubfolderPart(None)) == RawDir(pp, parts)
    ensures Join(pp.DatasetsRoot(), [ProcessedFolder] + parts + SubfolderPart(None)) == ProcessedDir(pp, parts)
  {
    DatasetsDir(pp, RawFolder, parts);
    DatasetsDir(pp, ProcessedFolder, parts);
  }

  /**
    `get_datasets_path(*parts, processed=...)`: both the raw and the processed
    folder are created whatever the mode; the mode only chooses what is
    returned.
   */
  function GetDatasetsPath(fs: FileSystem, pp: ProjectPaths, parts: seq<string>,
                           mode: DatasetsMode): (r: (DatasetsPath, FileSystem))
    requires WellFormed(fs)
    ensures mode == Raw ==> r.0 == Single(RawDir(pp, parts))
    ensures mode == Processed ==> r.0 == Single(ProcessedDir(pp, parts))
    ensures mode == Both ==> r.0 == Pair(RawDir(pp, parts), ProcessedDir(pp, parts))
    ensures WellFormed(r.1)
    ensures Exists(r.1, RawDir(pp, parts)) && Exists(r.1, ProcessedDir(pp, parts))
    ensures r.1.paths == fs.paths + Prefixes(RawDir(pp, parts)) + Prefixes(ProcessedDir(pp, parts))
    ensures r.1.files == fs.files
  {
    var (rawPath, fs1) := GetSubfolderPath(fs, pp.DatasetsRoot(), [RawFolder] + parts, None, true);
    var (procPath, fs2) := GetSubfolderPath(fs1, pp.DatasetsRoot(), [ProcessedFolder] + parts, None, true);
    DatasetsDirs(pp, parts);
    match mode
    case Both => (Pair(rawPath, procPath), fs2)
    case Processed => (Single(procPath), fs2)
    case Raw => (Single(rawPath), fs2)
  }

  /** Where `get_results_path` puts results, relative to the project's base. */
  function ResultsDir(pp: ProjectPaths, parts: seq<string>): Path {
    pp.basePath + ["02_Results"] + Segments(parts)
  }

  lemma ResultsDirs(pp: ProjectPaths, parts: seq<string>)
    ensures Join(pp.ResultsRoot(), parts + SubfolderPart(None)) == ResultsDir(pp, parts)
    ensures Join(ResultsDir(pp, parts), [] + SubfolderPart(Some(PlotsFolder))) == ResultsDir(pp, parts) + ["plots"]
  {
    assert parts + [] == parts;
    assert [] + [PlotsFolder] == [PlotsFolder];
    assert Segments([PlotsFolder]) == [PlotsFolder];
    assert Segments([ResultsFolder]) == [ResultsFolder];
  }

  /**
    `get_results_path(*parts, plots=...)`: the results folder, and its `plots`
    child exactly when `plots` is requested; each returned folder is created.
   */
  function GetResultsPath(fs: FileSystem, pp: ProjectPaths, parts: seq<string>,
                          plots: bool): (r: (Path, Option<Path>, FileSystem))
    requires WellFormed(fs)
    ensures r.0 == ResultsDir(pp, parts)
    ensures r.1.Some? <==> plots
    ensures plots ==> r.1 == Some(ResultsDir(pp, parts) + ["plots"])
    ensures WellFormed(r.2)
    ensures Exists(r.2, r.0) && (plots ==> Exists(r.2, r.1.value))
    ensures plots ==> r.2.paths == fs.paths + Prefixes(ResultsDir(pp, parts) + ["plots"])
    ensures !plots ==> r.2.paths == fs.paths + Prefixes(ResultsDir(pp, parts))
    ensures r.2.files == fs.files
  {
    var (basePath, fs1) := GetSubfolderPath(fs, pp.ResultsRoot(), parts, None, true);
    ResultsDirs(pp, parts);
    if plots then
      var (plotsPath, fs2) := GetSubfolderPath(fs1, basePath, [], Some(PlotsFolder), true);
      PrefixesSnoc(plotsPath);
      (basePath, Some(plotsPath), fs2)
    else
      (basePath, None, fs1)
  }

  /** Where `get_figures_path` puts figures, relative to the project's base. */
  function FiguresDir(pp: ProjectPaths, parts: seq<string>): Path {
    pp.basePath + ["03_Figures"] + Segments(parts)
  }

  /** `get_figures_path(*parts)`: the figures folder, created with its ancestors. */
  function GetFiguresPath(fs: FileSystem, pp: ProjectPaths, parts: seq<string>): (r: (Path, FileSystem))
    requires WellFormed(fs)
    ensures r.0 == FiguresDir(pp, parts)
    ensures WellFormed(r.1)
    ensures Exists(r.1, r.0)
    ensures r.1.paths == fs.paths + Prefixes(r.0)
    ensures r.1.files == fs.files
  {
    GetSubfolderPath(fs, pp.FiguresRoot(), parts, None, true)
  }

  /** When exactly one candidate holds the project, that one is found wherever it sits. */
  lemma FindProjectPathUnique(fs: FileSystem, bases: seq<Path>, project: string, i: int)
    requires 0 <= i < |bases| && Exists(fs, ProjectDir(bases[i], project))
    requires forall j | 0 <= j < |bases| && j != i :: !Exists(fs, ProjectDir(bases[j], project))
    ensures FindProjectPath(fs, bases, project) == Success(ProjectDir(bases[i], project))
  {
    var r := FindProjectPath(fs, bases, project);
    var k :| FirstMatchAt(fs, bases, project, k) && r.value == ProjectDir(bases[k], project);
    assert k == i;
  }

  /**
    First match is insensitive to what comes after it: appending candidates
    changes nothing once a match is found, and a search that fails on `a`
    continues on `b` as if `a` were not there.
   */
  lemma {:induction false} FindProjectPathAppend(fs: FileSystem, a: seq<Path>, b: seq<Path>, project: string)
    ensures FindProjectPath(fs, a, project).Success? ==>
              FindProjectPath(fs, a + b, project) == FindProjectPath(fs, a, project)
    ensures FindProjectPath(fs, a, project).Failure? ==>
              FindProjectPath(fs, a + b, project) == FindProjectPath(fs, b, project)
    decreases |a|
  {
    if |a| == 0 {
      assert a + b == b;
    } else {
      assert (a + b)[0] == a[0];
      assert (a + b)[1..] == a[1..] + b;
      FindProjectPathAppend(fs, a[1..], b, project);
    }
  }

  /**
    A missing or empty `search_paths` means the default list; a non-empty one
    is searched as given and the defaults are never consulted.
   */
  lemma CandidateBasesChoice(fs: FileSystem, project: string, searchPaths: seq<Path>, defaults: seq<Path>,
                             otherDefaults: seq<Path>)
    ensures NewProjectPaths(fs, project, None, defaults) == NewProjectPaths(fs, project, Some(defaults), defaults)
    ensures NewProjectPaths(fs, project, Some([]), defaults) == NewProjectPaths(fs, project, None, defaults)
    ensures |searchPaths| > 0 ==>
              NewProjectPaths(fs, project, Some(searchPaths), defaults)
              == NewProjectPaths(fs, project, Some(searchPaths), otherDefaults)
  {
  }

  /** The raw and processed folders differ only in the segment after `01_Datasets`. */
  lemma RawAndProcessedDiffer(pp: ProjectPaths, parts: seq<string>)
    ensures var raw, proc, k := RawDir(pp, parts), ProcessedDir(pp, parts), |pp.basePath| + 1;
            && |raw| == |proc| && k < |raw|
            && raw[k] == "raw" && proc[k] == "processed"
            && raw[..k] == proc[..k] && raw[k + 1..] == proc[k + 1..]
  {
    var k := |pp.basePath| + 1;
    assert RawDir(pp, parts)[..k] == pp.basePath + ["01_Datasets"];
    assert ProcessedDir(pp, parts)[..k] == pp.basePath + ["01_Datasets"];
    assert RawDir(pp, parts)[k + 1..] == Segments(parts);
    assert ProcessedDir(pp, parts)[k + 1..] == Segments(parts);
  }

  /** The datasets mode chooses the answer, never what is created. */
  lemma DatasetsModeCreatesSame(fs: FileSystem, pp: ProjectPaths, parts: seq<string>, m1: DatasetsMode, m2: DatasetsMode)
    requires WellFormed(fs)
    ensures GetDatasetsPath(fs, pp, parts, m1).1 == GetDatasetsPath(fs, pp, parts, m2).1
  {
  }

  /** A second identical call returns the same path and leaves the filesystem as the first left it. */
  lemma SubfolderIdempotent(fs: FileSystem, root: Path, parts: seq<string>, subfolder: Option<string>, create: bool)
    requires WellFormed(fs)
    ensures var (p, fs1) := GetSubfolderPath(fs, root, parts, subfolder, create);
            create ==> GetSubfolderPath(fs1, root, parts, subfolder, true) == (p, fs1)
  {
  }

  lemma DatasetsIdempotent(fs: FileSystem, pp: ProjectPaths, parts: seq<string>, mode: DatasetsMode)
    requires WellFormed(fs)
    ensures var (p, fs1) := GetDatasetsPath(fs, pp, parts, mode);
            GetDatasetsPath(fs1, pp, parts, mode) == (p, fs1)
  {
  }

  lemma ResultsIdempotent(fs: FileSystem, pp: ProjectPaths, parts: seq<string>, plots: bool)
    requires WellFormed(fs)
    ensures var (p, q, fs1) := GetResultsPath(fs, pp, parts, plots);
            GetResultsPath(fs1, pp, parts, plots) == (p, q, fs1)
  {
  }

  lemma FiguresIdempotent(fs: FileSystem, pp: ProjectPaths, parts: seq<string>)
    requires WellFormed(fs)
    ensures var (p, fs1) := GetFiguresPath(fs, pp, parts);
            GetFiguresPath(fs1, pp, parts) == (p, fs1)
  {
  }

  /**
    The end-to-end scenario: with candidates `[a, b]` and the project only
    under `b`, the project resolves to `b/project`, and asking for the
    `paper` figures folder returns `b/project/03_Figures/paper`, which then
    exists.
   */
  lemma ResolveThenFigures(fs: FileSystem, a: Path, b: Path, project: string, defaults: seq<Path>)
    requires WellFormed(fs)
    requires !Ignorable(project)
    requires !Exists(fs, a + [project]) && Exists(fs, b + [project])
    ensures var r := NewProjectPaths(fs, project, Some([a, b]), defaults);
            && r == Success(ProjectPaths(project, b + [project]))
            && var (p, fs1) := GetFiguresPath(fs, r.value, ["paper"]);
               p == b + [project, "03_Figures", "paper"] && Exists(fs1, p)
  {
    var bases := [a, b];
    assert CandidateBases(Some(bases), defaults) == bases;
    JoinPlain(a, project);
    JoinPlain(b, project);
    FindProjectPathUnique(fs, bases, project, 1);
    var pp := ProjectPaths(project, b + [project]);
    assert NewProjectPaths(fs, project, Some(bases), defaults) == Success(pp);
    assert Segments(["paper"]) == ["paper"];
    assert FiguresDir(pp, ["paper"]) == b + [project, "03_Figures", "paper"];
  }

  /** A project folder that exists directly under the only search path is found there. */
  lemma FindInSingleBase(fs: FileSystem, base: Path, project: string, defaults: seq<Path>)
    requires Exists(fs, ProjectDir(base, project))
    ensures NewProjectPaths(fs, project, Some([base]), defaults)
            == Success(ProjectPaths(project, ProjectDir(base, project)))
  {
    assert CandidateBases(Some([base]), defaults) == [base];
    FindProjectPathUnique(fs, [base], project, 0);
  }

  /** When both dataset folders already exist, `get_datasets_path` creates nothing. */
  lemma DatasetsAlreadyThere(fs: FileSystem, pp: ProjectPaths, parts: seq<string>, mode: DatasetsMode)
    requires WellFormed(fs)
    requires Exists(fs, RawDir(pp, parts)) && Exists(fs, ProcessedDir(pp, parts))
    ensures GetDatasetsPath(fs, pp, parts, mode).1 == fs
  {
    AncestorsExist(fs, RawDir(pp, parts));
    AncestorsExist(fs, ProcessedDir(pp, parts));
  }
}
