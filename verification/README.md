# Project layout scripts, modelled in Dafny

This project models two small research-workflow utilities:

- **`ProjectPaths`** (`project_paths.py`) finds a project folder. It tries an
  ordered list of candidate base directories and takes the first `base/project`
  that exists. If none exists it raises `FileNotFoundError`. It then builds
  paths under the project's `01_Datasets`, `02_Results` and `03_Figures`
  folders, and creates each one with `mkdir(parents=True, exist_ok=True)`.
  The datasets accessor has three modes: raw, processed, or both. The
  results accessor can also return a `plots` child folder.
- **`ProjectStructure`** (`build_folder_template.py`) scaffolds a new project.
  It creates the project folder and four top-level folders. Each top-level
  folder gets a `README.txt` holding its stripped description and a newline.
  Then it creates a fixed list of nested subfolders and returns the project
  folder.

The filesystem is an immutable value, `Paths.FileSystem`. It holds the set of
existing paths and the text of the files among them. A path is a sequence of
segment names. Every operation takes a filesystem and returns the new one.

`mkdir -p` is modelled with the same effect as `pathlib`'s: nothing happens if
the path exists; otherwise the missing ancestors and the path are made. On a
filesystem that is a tree (`Paths.WellFormed`), it adds exactly the path's
prefixes. A `pathlib` join drops `""` and `"."` components, and `Paths.Join`
does the same.

Modules:

- `Wrappers`: `Option` and `Result`.
- `Paths`: paths, joins, the filesystem, `mkdir -p` and `write_text`.
- `Text`: `str.strip()`.
- `Locator`: `project_paths.py`.
- `FolderTemplate`: `build_folder_template.py`.
- `Workflow`: the two composed, scaffolding first and locating second.

Points where the model follows the code's exact behaviour:

- Resolution tests `exists()`, not "is a directory". A file named like the
  project therefore also matches.
- The not-found error carries the project name. It does not list the searched
  locations.
- `processed` is read for its truth unless it equals `"both"`. So any other
  non-empty string, `"raw"` included, selects the processed folder
  (`Locator.ModeOf`).

## Model

| member | source | states |
|---|---|---|
| Paths.Segments | project_paths.py:83 | No `""` or `.` component survives a join, at most as many components as parts are kept, and a list of plain parts is kept unchanged. |
| Paths.SegmentsSingleton | project_paths.py:83 | One component survives a join exactly when it is not `""` or `.`. With `Paths.SegmentsAppend` this pins the join down: exactly the plain parts, all of them, in order. |
| Paths.SegmentsAppend | project_paths.py:83-85 | Filtering components distributes over concatenation. |
| Paths.JoinJoin | project_paths.py:83-85 | Joining `parts`, then `subfolder`, equals joining all of them at once. |
| Paths.AncestorsExist | project_paths.py:87 | In a tree, every ancestor of an existing path also exists. |
| Paths.MkdirParents | project_paths.py:87 | `mkdir(parents=True, exist_ok=True)` keeps the filesystem a tree, and the path exists afterwards. It adds exactly the path's prefixes and touches no file. On an existing path it changes nothing. |
| Paths.MkdirParentsIdempotent | project_paths.py:87 | Creating the same directory twice equals creating it once. |
| Paths.WriteText | build_folder_template.py:94 | Writing a file whose directory exists keeps the filesystem a tree. It adds only that path, sets its content, and leaves every other file unchanged. The content is the `str` passed in, not the encoded bytes. |
| Text.TrimStartSpec | build_folder_template.py:94 | `lstrip` removes exactly the leading run of whitespace. |
| Text.TrimEndSpec | build_folder_template.py:94 | `rstrip` removes exactly the trailing run of whitespace. |
| Text.StripSpec | build_folder_template.py:94 | `strip()` returns a slice of its input that neither starts nor ends with whitespace. Everything cut off on either side is whitespace. |
| Text.StripFixedPoint | build_folder_template.py:94 | `strip()` leaves a string unchanged if and only if it has no leading or trailing whitespace. |
| Text.StripIdempotent | build_folder_template.py:94 | Stripping twice equals stripping once. |
| Locator.FindProjectPath | project_paths.py:65-73 | On success it returns `base/project` for a candidate that exists, and no earlier candidate exists. It fails, with the project's name, exactly when no candidate exists. It only reads the filesystem. |
| Locator.FindProjectPathUnique | project_paths.py:65-69 | When exactly one candidate holds the project, that candidate is returned, whatever its position. |
| Locator.FindProjectPathAppend | project_paths.py:65-69 | Candidates after the first match are never consulted. After a miss on a prefix, the search continues on the rest as if the prefix were absent. |
| Locator.NewProjectPaths | project_paths.py:46-54 | Construction yields the first match among the candidate bases, or the not-found error when no base matches. The datasets, results and figures roots are `base/01_Datasets`, `base/02_Results` and `base/03_Figures`. |
| Locator.CandidateBasesChoice | project_paths.py:63 | A missing or empty `search_paths` means the default list is searched. A non-empty one is searched as given, and the defaults do not matter. |
| Locator.FindInSingleBase | project_paths.py:63-69 | With one search path whose `path/project` exists, construction succeeds with that folder. |
| Locator.GetSubfolderPath | project_paths.py:75-88 | The result is `root/parts`, with the subfolder appended only when it is non-empty. With `create`, the path exists afterwards and only its prefixes were added. Without `create`, or when the path already exists, nothing changes. |
| Locator.SubfolderIdempotent | project_paths.py:86-88 | A second identical call returns the same path and leaves the filesystem unchanged. |
| Locator.ModeOf | project_paths.py:97-102 | `"both"` selects the pair. `False` and `""` select raw. Every other value selects processed. |
| Locator.GetDatasetsPath | project_paths.py:90-105 | Both `01_Datasets/raw/parts` and `01_Datasets/processed/parts` are created in every mode. Only their prefixes are added. The mode picks raw, processed, or the pair with raw first. |
| Locator.RawAndProcessedDiffer | project_paths.py:94-95 | The raw and processed paths have the same length. They differ only in the segment after `01_Datasets`. |
| Locator.DatasetsModeCreatesSame | project_paths.py:94-102 | The mode changes what is returned, never what is created. |
| Locator.DatasetsIdempotent | project_paths.py:94-95 | A second identical datasets call returns the same answer and creates nothing. |
| Locator.DatasetsAlreadyThere | project_paths.py:94-95 | When both dataset folders exist, the call creates nothing. |
| Locator.GetResultsPath | project_paths.py:107-120 | Returns `02_Results/parts`. The second component is present exactly when `plots` is set, and then it is that folder followed by `plots`. Each returned folder exists, and only their prefixes were added. |
| Locator.ResultsIdempotent | project_paths.py:111-114 | A second identical results call returns the same pair and creates nothing. |
| Locator.GetFiguresPath | project_paths.py:122-126 | Returns `03_Figures/parts`. That folder exists afterwards, and only its prefixes were added. |
| Locator.FiguresIdempotent | project_paths.py:124 | A second identical figures call returns the same path and creates nothing. |
| Locator.ResolveThenFigures | project_paths.py:65-69 | Take candidates `[a, b]` with the project only under `b`. Resolution gives `b/project`. Asking for `paper` figures then returns `b/project/03_Figures/paper`, and that folder exists. |
| FolderTemplate.NewProjectStructure | build_folder_template.py:69-71 | The project folder is the destination extended by the project name. An empty name or `.` leaves the destination unchanged. |
| FolderTemplate.CreateTopLevelPaths | build_folder_template.py:90-92 | After the top-level loop every folder exists. The only paths added are prefixes of README paths. |
| FolderTemplate.CreateTopLevelFiles | build_folder_template.py:90-94 | After the top-level loop, each README holds its stripped description and a newline, and no other file changes. |
| FolderTemplate.CreateTopLevelKeepsWrittenFiles | build_folder_template.py:93-94 | When every README already holds its text, the loop leaves all files as they are. |
| FolderTemplate.CreateSubfolders | build_folder_template.py:97-99 | After the subfolder loop every subfolder exists. Only their prefixes are added, and no file is touched. |
| FolderTemplate.Create | build_folder_template.py:73-102 | `create()` returns the project folder and leaves the filesystem a tree. |
| FolderTemplate.CreateMakesFolders | build_folder_template.py:87-99 | After `create()`, the project folder, all four top-level folders and every entry of `ALL_SUBFOLDERS` exist. |
| FolderTemplate.CreateMakesDatasetFolders | build_folder_template.py:48-50 | After `create()`, `project/01_Datasets/raw` and `project/01_Datasets/processed` exist. |
| FolderTemplate.CreateAddsOnly | build_folder_template.py:87-99 | `create()` adds exactly the prefixes of the project folder, of the README files and of the subfolders. Nothing else is added. |
| FolderTemplate.CreateFiles | build_folder_template.py:90-94 | After `create()`, each README holds its stripped description and a newline, overwriting any earlier one. The README files are the only files written. |
| FolderTemplate.CreateKeepsWrittenFiles | build_folder_template.py:93-94 | When every README already holds its text, `create()` leaves all files as they are. |
| FolderTemplate.CreateAgainSamePaths | build_folder_template.py:87-99 | A second `create()` adds no path. |
| FolderTemplate.CreateAgainSameFiles | build_folder_template.py:93-94 | A second `create()` leaves every file as the first left it. |
| FolderTemplate.CreateIdempotent | build_folder_template.py:87-102 | A second `create()` succeeds, returns the same folder and leaves the filesystem unchanged. |
| Workflow.ScaffoldThenLocate | build_folder_template.py:87-102 | After `create(destination, name)`, a locator searching only `destination` finds `destination/name`. Its raw and processed dataset folders already exist, and asking for both creates nothing. |
| Workflow.LocateScaffolded | project_paths.py:63-105 | In any filesystem holding the scaffolded folders, the locator finds the project, and a "both" datasets call returns the pair without creating anything. |

## Left out

- The current user name (`getpass.getuser()`) and the two hard-coded default search directories are environment-specific. The default list is a parameter (`defaults`), and the user name appears nowhere.
- All `print` output is left out. It is informational only.
- `parse_args`, `input()` and the module-level example run in `build_folder_template.py` are command-line and interactive I/O. They are not modelled.
- The `.resolve()` call in the final print of `create()` is not modelled. It only affects printed text.
- OS-level failures are not modelled: permission errors, a file standing where a directory is expected, and writing a README onto an existing directory. The model keeps one existence set and does not separate files from directories.
- Paths.WriteText: requires the file's directory to exist instead of modelling the `FileNotFoundError` raised otherwise. `create()` always makes the directory first.
- Name matching is exact: segments compare case-sensitively, with no case folding and no stripping of trailing dots or spaces as Windows does, and `..` is treated as a plain directory name rather than resolved. On Windows, `exists()` would match `MyProj` for `myproj`, where the model reports not found.
- File contents are the Python `str` written; the utf-8 encoding and Windows newline translation of `write_text` are not modelled.
- Absolute components and components containing a separator are not modelled. In `pathlib`, these reset or split a join. Each `ALL_SUBFOLDERS` entry is stored already split at its `/`.
- Text.StripSpec: Python's whitespace set is modelled as the characters for which `str.isspace()` holds. No other Unicode behaviour is modelled.
- The timer utilities (`elapsed_timer.py`, `my_timer.py`, `timer.py`) are left out. They read the wall clock and format floating-point values.
- The pickle wrapper (`pickle_handler.py`) is left out. It passes straight through to a serialization library.
