/**
  The two scripts composed: scaffolding a project with `ProjectStructure`
  and then locating it with `ProjectPaths`, searching only the destination
  it was scaffolded in.
 */
module Workflow {
  import opened Wrappers
  import opened Paths
  import Locator
  import FolderTemplate

  /**
    After `create()`, the locator finds the new project folder, its raw and
    processed dataset folders already exist, and asking for both of them
    returns that pair without creating anything.
   */
  lemma ScaffoldThenLocate(fs: FileSystem, projectName: string, destination: Path, defaults: seq<Path>)
    requires WellFormed(fs)
    ensures var (projectPath, fs1) := FolderTemplate.Create(fs, FolderTemplate.NewProjectStructure(projectName, destination));
            var r := Locator.NewProjectPaths(fs1, projectName, Some([destination]), defaults);
            && r == Success(Locator.ProjectPaths(projectName, projectPath))
            && Exists(fs1, Locator.RawDir(r.value, []))
            && Exists(fs1, Locator.ProcessedDir(r.value, []))
            && Locator.GetDatasetsPath(fs1, r.value, [], Locator.Both)
               == (Locator.Pair(Locator.RawDir(r.value, []), Locator.ProcessedDir(r.value, [])), fs1)
  {
    var ps := FolderTemplate.NewProjectStructure(projectName, destination);
    var fs1 := FolderTemplate.Create(fs, ps).1;
    FolderTemplate.CreateMakesFolders(fs, ps);
    FolderTemplate.CreateMakesDatasetFolders(fs, ps);
    LocateScaffolded(fs1, projectName, destination, ps.projectPath, defaults);
  }

  /** The locating half, for any filesystem in which the scaffolded folders exist. */
  lemma LocateScaffolded(fs: FileSystem, projectName: string, destination: Path, projectPath: Path,
                         defaults: seq<Path>)
    requires WellFormed(fs)
    requires projectPath == Join(destination, [projectName])
    requires Exists(fs, projectPath)
    requires Exists(fs, projectPath + ["01_Datasets", "raw"])
    requires Exists(fs, projectPath + ["01_Datasets", "processed"])
    ensures var r := Locator.NewProjectPaths(fs, projectName, Some([destination]), defaults);
            && r == Success(Locator.ProjectPaths(projectName, projectPath))
            && Exists(fs, Locator.RawDir(r.value, []))
            && Exists(fs, Locator.ProcessedDir(r.value, []))
            && Locator.GetDatasetsPath(fs, r.value, [], Locator.Both)
               == (Locator.Pair(Locator.RawDir(r.value, []), Locator.ProcessedDir(r.value, [])), fs)
  {
    Locator.FindInSingleBase(fs, destination, projectName, defaults);
    var pp := Locator.ProjectPaths(projectName, projectPath);
    assert Locator.RawDir(pp, []) == projectPath + ["01_Datasets", "raw"];
    assert Locator.ProcessedDir(pp, []) == projectPath + ["01_Datasets", "processed"];
    Locator.DatasetsAlreadyThere(fs, pp, [], Locator.Both);
  }
}
