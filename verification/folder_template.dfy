/**
  The folder-template scaffolder of `build_folder_template.py`: the
  `ProjectStructure` class creates a project folder, four top-level folders
  each holding a `README.txt` that describes it, and a fixed list of nested
  subfolders. The final `print` is not modelled.
 */
module FolderTemplate {
  import opened Paths
  import opened Text

  /** A top-level folder and the description written to its README. */
  datatype Folder = Folder(name: string, description: string)

  /** `TOP_LEVEL_FOLDERS`, in the dictionary's insertion order. */
  const TopLevelFolders: seq<Folder> := [
    Folder("01_Datasets",
           "Contains the datasets used in the project.\n"
           + "- raw/: original datasets received or downloaded\n"
           + "- processed/: transformed or generated datasets"),
    Folder("02_Results",
           "Results of the experiments: outputs, metrics, saved models, etc."),
    Folder("03_Figures",
           "Figures useful for communication: diagrams, figures for articles or presentations."),
    Folder("04_Documents",
           "Project documentation:\n"
           + "- 01_References/: third-party material (slides, articles, papers)\n"
           + "- 02_Presentations/: presentations created by you\n"
           + "- 03_Reports/: technical reports\n"
           + "- 04_Bureaucracy/: bureaucratic material\n"
           + "- 05_Notes/: internal notes or meeting notes")
  ]

  /** `ALL_SUBFOLDERS`, each entry already split at its `/`. */
  const AllSubfolders: seq<seq<string>> := [
    ["01_Datasets", "raw"],
    ["01_Datasets", "processed"],
    ["04_Documents", "01_References"],
    ["04_Documents", "02_Presentations"],
    ["04_Documents", "03_Reports"],
    ["04_Documents", "04_Bureaucracy"],
    ["04_Documents", "05_Notes"]
  ]

  const ReadmeName := "README.txt"

  /** A project to scaffold: `project_path` is fixed when the value is built. */
  datatype ProjectStructure = ProjectStructure(projectName: string, destination: Path, projectPath: Path)

  /** `ProjectStructure(project_name, destination)`: the project folder is `destination / project_name`. */
  function NewProjectStructure(projectName: string, destination: Path): (r: ProjectStructure)
    ensures r.projectName == projectName && r.destination == destination
    ensures !Ignorable(projectName) ==> r.projectPath == destination + [projectName]
    ensures Ignorable(projectName) ==> r.projectPath == destination
  {
    ProjectStructure(projectName, destination, Join(destination, [projectName]))
  }

  function FolderPath(root: Path, name: string): Path {
    Join(root, [name])
  }

  function ReadmePath(root: Path, name: string): Path {
    Join(FolderPath(root, name), [ReadmeName])
  }

  /** `description.strip() + "\n"`. */
  function ReadmeText(description: string): string {
    Strip(description) + "\n"
  }

  /** Folder names are plain segments and pairwise distinct, as dictionary keys are. */
  predicate PlainDistinctNames(folders: seq<Folder>) {
    && (forall i | 0 <= i < |folders| :: !Ignorable(folders[i].name))
    && (forall i, j | 0 <= i < j < |folders| :: folders[i].name != folders[j].name)
  }

  /** The README files the top-level loop writes. */
  function ReadmeSet(root: Path, folders: seq<Folder>): set<Path> {
    set i | 0 <= i < |folders| :: ReadmePath(root, folders[i].name)
  }

  /** Every path the top-level loop may add: the prefixes of each README path. */
  function TopLevelAdded(root: Path, folders: seq<Folder>): set<Path>
    decreases |folders|
  {
    if |folders| == 0 then {}
    else Prefixes(ReadmePath(root, folders[0].name)) + TopLevelAdded(root, folders[1..])
  }

  /** Every path the subfolder loop may add: the prefixes of each subfolder. */
  function SubfoldersAdded(root: Path, subfolders: seq<seq<string>>): set<Path>
    decreases |subfolders|
  {
    if |subfolders| == 0 then {}
    else Prefixes(Join(root, subfolders[0])) + SubfoldersAdded(root, subfolders[1..])
  }

  lemma ReadmePathShape(root: Path, name: string)
    requires !Ignorable(name)
    ensures FolderPath(root, name) == root + [name]
    ensures ReadmePath(root, name) == root + [name, ReadmeName]
    ensures Parent(ReadmePath(root, name)) == FolderPath(root, name)
  {
    assert Segments([ReadmeName]) == [ReadmeName];
  }

  /** Peeling the first folder off: its README is new and the rest stay plain and distinct. */
  lemma ReadmeSetCons(root: Path, folders: seq<Folder>)
    requires |folders| > 0 && PlainDistinctNames(folders)
    ensures PlainDistinctNames(folders[1..])
    ensures ReadmeSet(root, folders) == {ReadmePath(root, folders[0].name)} + ReadmeSet(root, folders[1..])
    ensures ReadmePath(root, folders[0].name) !in ReadmeSet(root, folders[1..])
  {
    var readme := ReadmePath(root, folders[0].name);
    var rest := folders[1..];
    forall i | 0 <= i < |folders|
      ensures ReadmePath(root, folders[i].name) in {readme} + ReadmeSet(root, rest)
    {
      if i > 0 {
        assert folders[i] == rest[i - 1];
      }
    }
    forall i | 0 <= i < |rest|
      ensures ReadmePath(root, rest[i].name) != readme
    {
      assert rest[i] == folders[i + 1];
      ReadmePathShape(root, rest[i].name);
      ReadmePathShape(root, folders[0].name);
      assert ReadmePath(root, rest[i].name)[|root|] == rest[i].name;
    }
  }

  /** The loop over `TOP_LEVEL_FOLDERS`: make each folder, then (over)write its README. */
  function CreateTopLevel(fs: FileSystem, root: Path, folders: seq<Folder>): (r: FileSystem)
    requires WellFormed(fs)
    requires forall i | 0 <= i < |folders| :: !Ignorable(folders[i].name)
    ensures WellFormed(r)
    decreases |folders|
  {
    if |folders| == 0 then fs
    else
      ReadmePathShape(root, folders[0].name);
      var fs1 := MkdirParents(fs, FolderPath(root, folders[0].name));
      var fs2 := WriteText(fs1, ReadmePath(root, folders[0].name), ReadmeText(folders[0].description));
      CreateTopLevel(fs2, root, folders[1..])
  }

  /** One turn of the top-level loop, spelled out. */
  lemma CreateTopLevelUnfold(fs: FileSystem, root: Path, folders: seq<Folder>)
    requires WellFormed(fs)
    requires |folders| > 0 && forall i | 0 <= i < |folders| :: !Ignorable(folders[i].name)
    ensures var dir, readme := FolderPath(root, folders[0].name), ReadmePath(root, folders[0].name);
            var fs2 := WriteText(MkdirParents(fs, dir), readme, ReadmeText(folders[0].description));
            && CreateTopLevel(fs, root, folders) == CreateTopLevel(fs2, root, folders[1..])
            && fs2.paths == fs.paths + Prefixes(readme)
            && dir in fs2.paths
            && fs2.files == fs.files[readme := ReadmeText(folders[0].description)]
  {
    ReadmePathShape(root, folders[0].name);
    PrefixesSnoc(ReadmePath(root, folders[0].name));
  }

  /**
    The paths the top-level loop leaves behind: every folder exists, and the
    only paths added are prefixes of README paths.
   */
  lemma {:induction false} CreateTopLevelPaths(fs: FileSystem, root: Path, folders: seq<Folder>)
    requires WellFormed(fs)
    requires PlainDistinctNames(folders)
    ensures var r := CreateTopLevel(fs, root, folders);
            && r.paths == fs.paths + TopLevelAdded(root, folders)
            && (forall i | 0 <= i < |folders| :: Exists(r, FolderPath(root, folders[i].name)))
    decreases |folders|
  {
    if |folders| > 0 {
      var rest := folders[1..];
      CreateTopLevelUnfold(fs, root, folders);
      ReadmeSetCons(root, folders);
      var fs2 := WriteText(MkdirParents(fs, FolderPath(root, folders[0].name)),
                           ReadmePath(root, folders[0].name), ReadmeText(folders[0].description));
      CreateTopLevelPaths(fs2, root, rest);
      assert forall i | 1 <= i < |folders| :: folders[i] == rest[i - 1];
    }
  }

  /**
    The files the top-level loop leaves behind: each folder's README holds its
    stripped description and a newline, and no other file is touched.
   */
  lemma {:induction false} CreateTopLevelFiles(fs: FileSystem, root: Path, folders: seq<Folder>)
    requires WellFormed(fs)
    requires PlainDistinctNames(folders)
    ensures var r := CreateTopLevel(fs, root, folders);
            && (forall i | 0 <= i < |folders| ::
                  && ReadmePath(root, folders[i].name) in r.files
                  && r.files[ReadmePath(root, folders[i].name)] == ReadmeText(folders[i].description))
            && r.files.Keys == fs.files.Keys + ReadmeSet(root, folders)
            && (forall q | q in fs.files && q !in ReadmeSet(root, folders) :: r.files[q] == fs.files[q])
    decreases |folders|
  {
    if |folders| == 0 {
      assert ReadmeSet(root, folders) == {};
    } else {
      var rest := folders[1..];
      CreateTopLevelUnfold(fs, root, folders);
      ReadmeSetCons(root, folders);
      var fs2 := WriteText(MkdirParents(fs, FolderPath(root, folders[0].name)),
                           ReadmePath(root, folders[0].name), ReadmeText(folders[0].description));
      CreateTopLevelFiles(fs2, root, rest);
      var r := CreateTopLevel(fs2, root, rest);
      var readme := ReadmePath(root, folders[0].name);
      assert r.files[readme] == ReadmeText(folders[0].description);
      forall i | 1 <= i < |folders|
        ensures ReadmePath(root, folders[i].name) in r.files
        ensures r.files[ReadmePath(root, folders[i].name)] == ReadmeText(folders[i].description)
      {
        assert folders[i] == rest[i - 1];
      }
      forall q | q in fs.files && q !in ReadmeSet(root, folders)
        ensures r.files[q] == fs.files[q]
      {
        assert q != readme && q !in ReadmeSet(root, rest);
      }
    }
  }

  /** The loop over `ALL_SUBFOLDERS`: each subfolder is made under `root`, no file is touched. */
  function CreateSubfolders(fs: FileSystem, root: Path, subfolders: seq<seq<string>>): (r: FileSystem)
    requires WellFormed(fs)
    ensures WellFormed(r)
    ensures r.paths == fs.paths + SubfoldersAdded(root, subfolders)
    ensures forall i | 0 <= i < |subfolders| :: Exists(r, Join(root, subfolders[i]))
    ensures r.files == fs.files
    decreases |subfolders|
  {
    if |subfolders| == 0 then fs
    else
      var fs1 := MkdirParents(fs, Join(root, subfolders[0]));
      var r := CreateSubfolders(fs1, root, subfolders[1..]);
      assert forall i | 1 <= i < |subfolders| :: subfolders[i] == subfolders[1..][i - 1];
      r
  }

  lemma TopLevelNamesPlain()
    ensures PlainDistinctNames(TopLevelFolders)
  {
  }

  /** `create()`: the project folder, the top-level folders with READMEs, the subfolders; returns the project folder. */
  function Create(fs: FileSystem, ps: ProjectStructure): (r: (Path, FileSystem))
    requires WellFormed(fs)
    ensures r.0 == ps.projectPath
    ensures WellFormed(r.1)
  {
    var fs1 := MkdirParents(fs, ps.projectPath);
    TopLevelNamesPlain();
    var fs2 := CreateTopLevel(fs1, ps.projectPath, TopLevelFolders);
    var fs3 := CreateSubfolders(fs2, ps.projectPath, AllSubfolders);
    (ps.projectPath, fs3)
  }

  /** The directories `create()` leaves behind: the project folder, every top-level folder and every subfolder. */
  lemma CreateMakesFolders(fs: FileSystem, ps: ProjectStructure)
    requires WellFormed(fs)
    ensures var r := Create(fs, ps).1;
            && Exists(r, ps.projectPath)
            && (forall i | 0 <= i < |TopLevelFolders| :: Exists(r, FolderPath(ps.projectPath, TopLevelFolders[i].name)))
            && (forall i | 0 <= i < |AllSubfolders| :: Exists(r, Join(ps.projectPath, AllSubfolders[i])))
  {
    var root := ps.projectPath;
    var fs1 := MkdirParents(fs, root);
    TopLevelNamesPlain();
    var fs2 := CreateTopLevel(fs1, root, TopLevelFolders);
    CreateTopLevelPaths(fs1, root, TopLevelFolders);
    var fs3 := CreateSubfolders(fs2, root, AllSubfolders);
    assert Create(fs, ps).1 == fs3;
    assert fs1.paths <= fs2.paths <= fs3.paths;
    assert Exists(fs3, root);
    forall i | 0 <= i < |TopLevelFolders|
      ensures Exists(fs3, FolderPath(root, TopLevelFolders[i].name))
    {
      assert Exists(fs2, FolderPath(root, TopLevelFolders[i].name));
    }
  }

  /**
    Nothing else changes: the paths `create()` adds are exactly prefixes of
    the project folder, of the README files and of the subfolders.
   */
  lemma CreateAddsOnly(fs: FileSystem, ps: ProjectStructure)
    requires WellFormed(fs)
    ensures Create(fs, ps).1.paths == fs.paths + Prefixes(ps.projectPath)
                                      + TopLevelAdded(ps.projectPath, TopLevelFolders)
                                      + SubfoldersAdded(ps.projectPath, AllSubfolders)
  {
    var fs1 := MkdirParents(fs, ps.projectPath);
    TopLevelNamesPlain();
    CreateTopLevelPaths(fs1, ps.projectPath, TopLevelFolders);
  }

  /**
    The files `create()` leaves behind: each top-level folder's README holds
    its stripped description and a newline (overwriting any earlier one), and
    no other file is written.
   */
  lemma CreateFiles(fs: FileSystem, ps: ProjectStructure)
    requires WellFormed(fs)
    ensures var r := Create(fs, ps).1;
            && (forall i | 0 <= i < |TopLevelFolders| ::
                  && ReadmePath(ps.projectPath, TopLevelFolders[i].name) in r.files
                  && r.files[ReadmePath(ps.projectPath, TopLevelFolders[i].name)]
                     == ReadmeText(TopLevelFolders[i].description))
            && r.files.Keys == fs.files.Keys + ReadmeSet(ps.projectPath, TopLevelFolders)
            && (forall q | q in fs.files && q !in ReadmeSet(ps.projectPath, TopLevelFolders) ::
                  r.files[q] == fs.files[q])
  {
    var fs1 := MkdirParents(fs, ps.projectPath);
    TopLevelNamesPlain();
    CreateTopLevelFiles(fs1, ps.projectPath, TopLevelFolders);
  }

  lemma DatasetSubfolderPaths(root: Path)
    ensures Join(root, AllSubfolders[0]) == root + ["01_Datasets", "raw"]
    ensures Join(root, AllSubfolders[1]) == root + ["01_Datasets", "processed"]
  {
    var raw, processed := AllSubfolders[0], AllSubfolders[1];
    assert raw == ["01_Datasets", "raw"] && Segments(raw) == raw;
    assert processed == ["01_Datasets", "processed"] && Segments(processed) == processed;
  }

  /** After `create()` the dataset folders exist below the project folder. */
  lemma CreateMakesDatasetFolders(fs: FileSystem, ps: ProjectStructure)
    requires WellFormed(fs)
    ensures Exists(Create(fs, ps).1, ps.projectPath + ["01_Datasets", "raw"])
    ensures Exists(Create(fs, ps).1, ps.projectPath + ["01_Datasets", "processed"])
  {
    var r := Create(fs, ps).1;
    CreateMakesFolders(fs, ps);
    assert Exists(r, Join(ps.projectPath, AllSubfolders[0]));
    assert Exists(r, Join(ps.projectPath, AllSubfolders[1]));
    DatasetSubfolderPaths(ps.projectPath);
  }

  lemma CreateAgainSamePaths(fs: FileSystem, ps: ProjectStructure)
    requires WellFormed(fs)
    ensures var fs1 := Create(fs, ps).1;
            Create(fs1, ps).1.paths == fs1.paths
  {
    var fs1 := Create(fs, ps).1;
    CreateAddsOnly(fs, ps);
    CreateAddsOnly(fs1, ps);
  }

  /** When every README already holds its text, the top-level loop leaves the files as they are. */
  lemma {:induction false} CreateTopLevelKeepsWrittenFiles(fs: FileSystem, root: Path, folders: seq<Folder>)
    requires WellFormed(fs)
    requires forall i | 0 <= i < |folders| :: !Ignorable(folders[i].name)
    requires forall i | 0 <= i < |folders| ::
               && ReadmePath(root, folders[i].name) in fs.files
               && fs.files[ReadmePath(root, folders[i].name)] == ReadmeText(folders[i].description)
    ensures CreateTopLevel(fs, root, folders).files == fs.files
    decreases |folders|
  {
    if |folders| > 0 {
      ReadmePathShape(root, folders[0].name);
      var fs1 := MkdirParents(fs, FolderPath(root, folders[0].name));
      var fs2 := WriteText(fs1, ReadmePath(root, folders[0].name), ReadmeText(folders[0].description));
      assert fs2.files == fs.files;
      assert forall i | 1 <= i < |folders| :: folders[i] == folders[1..][i - 1];
      CreateTopLevelKeepsWrittenFiles(fs2, root, folders[1..]);
    }
  }

  /** When every README already holds its text, `create()` leaves the files as they are. */
  lemma CreateKeepsWrittenFiles(fs: FileSystem, ps: ProjectStructure)
    requires WellFormed(fs)
    requires forall i | 0 <= i < |TopLevelFolders| ::
               && ReadmePath(ps.projectPath, TopLevelFolders[i].name) in fs.files
               && fs.files[ReadmePath(ps.projectPath, TopLevelFolders[i].name)]
                  == ReadmeText(TopLevelFolders[i].description)
    ensures Create(fs, ps).1.files == fs.files
  {
    TopLevelNamesPlain();
    CreateTopLevelKeepsWrittenFiles(MkdirParents(fs, ps.projectPath), ps.projectPath, TopLevelFolders);
  }

  lemma CreateAgainSameFiles(fs: FileSystem, ps: ProjectStructure)
    requires WellFormed(fs)
    ensures var fs1 := Create(fs, ps).1;
            Create(fs1, ps).1.files == fs1.files
  {
    CreateFiles(fs, ps);
    CreateKeepsWrittenFiles(Create(fs, ps).1, ps);
  }

  /** Running `create()` again succeeds, returns the same folder and changes nothing. */
  lemma CreateIdempotent(fs: FileSystem, ps: ProjectStructure)
    requires WellFormed(fs)
    ensures var (p, fs1) := Create(fs, ps);
            Create(fs1, ps) == (p, fs1)
  {
    CreateAgainSamePaths(fs, ps);
    CreateAgainSameFiles(fs, ps);
  }
}
