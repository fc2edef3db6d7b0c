/**
  The collaborators AtomicTool::Start prepares before a command runs, seen
  only through the calls it makes on them: the selected command's capability
  surface, the answer of the command parser, the file system, and the paths
  derived from the project path.
 */
module Environment {
  import opened Effects

  /**
    The selected command as the orchestrator sees it: whether it needs a
    project and a license check, whether LoadProject() succeeds, and the
    path GetProjectPath() returns.
   */
  datatype Command = Command(
    requiresProjectLoad: bool,
    requiresLicenseValidation: bool,
    loadSucceeds: bool,
    projectPath: string)

  /** What CommandParser::Parse answers: a command, or none plus its error message. */
  datatype ParseResult = ParseResult(command: Option<Command>, errorMessage: string)

  /** ToString("%sResources", path): no separator is inserted. */
  function ResourcesDir(projectPath: string): string
  {
    projectPath + "Resources"
  }

  /** ToString("%sCache", path): no separator is inserted. */
  function CacheDir(projectPath: string): string
  {
    projectPath + "Cache"
  }

  /** projectPath + "/" + "Build". */
  function BuildFolder(projectPath: string): string
  {
    projectPath + "/" + "Build"
  }

  /**
    The resource directories and the build folder are joined to the project
    path differently: right after the path, a resource directory never has a
    '/', while the build folder always has one.
   */
  lemma ProjectPathJoins(projectPath: string)
    ensures ResourcesDir(projectPath)[|projectPath|] == 'R' && CacheDir(projectPath)[|projectPath|] == 'C'
    ensures BuildFolder(projectPath)[|projectPath|] == '/'
  {
  }

  /**
    The file system as the orchestrator uses it: the set of existing
    directories, and whether CreateDir actually creates one.
   */
  class FileSystem {
    var dirs: set<string>
    const createSucceeds: bool

    constructor (dirs: set<string>, createSucceeds: bool)
      ensures this.dirs == dirs && this.createSucceeds == createSucceeds
    {
      this.dirs := dirs;
      this.createSucceeds := createSucceeds;
    }

    method DirExists(path: string) returns (b: bool)
      ensures b <==> path in dirs
    {
      b := path in dirs;
    }

    method CreateDir(path: string)
      modifies this`dirs
      ensures dirs == if createSucceeds then old(dirs) + {path} else old(dirs)
    {
      if createSucceeds {
        dirs := dirs + {path};
      }
    }
  }
}
