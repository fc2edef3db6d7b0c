/**
  What the lifecycle of AtomicTool guarantees, stated about the calls Start
  and the event handlers make (StartEffects, HandleEffects), and the
  end-to-end runs of the tool on a few concrete invocations.
 */
module ToolProperties {
  import opened Effects
  import opened Arguments
  import opened ExitController
  import opened Environment
  import opened Tool

  // ----- Setup -----

  /**
    Setup makes the engine headless and, unless a `-loglevel` flag is given,
    keeps the log level at LOG_INFO.
   */
  lemma SetupDefaults(params: map<string, Param>, args: seq<string>, selected: bool)
    requires forall k :: 0 <= k < |args| ==> !IsFlagNamed(args[k], "loglevel")
    ensures SetupParameters(params, args, selected)["Headless"] == Flag(true)
    ensures SetupParameters(params, args, selected)["LogLevel"] == Level(LogInfo)
  {
    LogLevelKeptWithoutFlag(args, 0, Initial);
  }

  lemma BuildFolderIsPathSlashBuild(projectPath: string)
    ensures BuildFolder(projectPath) == projectPath + "/Build"
  {
    assert projectPath + "/" + "Build" == projectPath + "/Build";
  }

  /** The calls of the project preparation never include the license gate or Run. */
  lemma ProjectEffectsBeforeGate(command: Command, dirs: set<string>, createSucceeds: bool,
                                 startupErrors: string, win32: bool)
    ensures var e := ProjectEffects(command, dirs, createSucceeds, startupErrors, win32);
      Run !in e && LicenseInitialize !in e && LicenseAgreementConfirmed !in e
  {
  }

  // ----- Start: the activation and deactivation short-circuits -----

  /**
    With an activation key, Start only confirms the license agreement, whether
    or not deactivation is also requested: no project load, no resource
    directory, no build path, no license initialisation and no Run.
   */
  lemma ActivationShortCircuits(activationKey: string, deactivate: bool, command: Option<Command>,
                                dirs: set<string>, createSucceeds: bool, startupErrors: string, win32: bool)
    requires activationKey != []
    ensures StartPathOf(activationKey, deactivate, command, dirs, createSucceeds) == Activation
    ensures StartEffects(activationKey, deactivate, command, dirs, createSucceeds, startupErrors, win32)
            == [LicenseAgreementConfirmed]
    ensures StartDirs(activationKey, deactivate, command, dirs, createSucceeds) == dirs
  {
  }

  /** With the deactivate flag and no activation key, Start does nothing at all. */
  lemma DeactivationShortCircuits(deactivate: bool, command: Option<Command>,
                                  dirs: set<string>, createSucceeds: bool, startupErrors: string, win32: bool)
    requires deactivate
    ensures StartPathOf([], deactivate, command, dirs, createSucceeds) == Deactivation
    ensures StartEffects([], deactivate, command, dirs, createSucceeds, startupErrors, win32) == []
    ensures StartDirs([], deactivate, command, dirs, createSucceeds) == dirs
  {
  }

  // ----- Start: project preparation -----

  /** A command that needs no project leads to no project load and no file system or resource call. */
  lemma NoProjectNoPreparation(command: Command, dirs: set<string>, createSucceeds: bool,
                               startupErrors: string, win32: bool)
    requires !command.requiresProjectLoad
    ensures StartEffects([], false, Some(command), dirs, createSucceeds, startupErrors, win32)
            == [if command.requiresLicenseValidation then LicenseInitialize else Run]
    ensures StartDirs([], false, Some(command), dirs, createSucceeds) == dirs
  {
  }

  /**
    When the project does not load, Start fails with "Failed to load project: "
    followed by the project path, and nothing else follows.
   */
  lemma LoadFailureStopsStart(command: Command, dirs: set<string>, createSucceeds: bool,
                              startupErrors: string, win32: bool)
    requires command.requiresProjectLoad && !command.loadSucceeds
    ensures StartPathOf([], false, Some(command), dirs, createSucceeds) == LoadFailure
    ensures StartEffects([], false, Some(command), dirs, createSucceeds, startupErrors, win32)
            == [LoadProject(command.projectPath), EngineExit,
                Report("Failed to load project: " + command.projectPath)]
    ensures StartDirs([], false, Some(command), dirs, createSucceeds) == dirs
  {
  }

  /**
    After a successful load of project P, the first calls are: the load, the
    resource directories P+"Resources" then P+"Cache" (no separator inserted),
    then the build path P+"/Build".
   */
  lemma PreparationOrder(command: Command, dirs: set<string>, createSucceeds: bool,
                         startupErrors: string, win32: bool)
    requires command.requiresProjectLoad && command.loadSucceeds
    ensures var e := StartEffects([], false, Some(command), dirs, createSucceeds, startupErrors, win32);
      var p := command.projectPath;
      |e| >= 5 && e[..4] == [LoadProject(p), AddResourceDir(p + "Resources"), AddResourceDir(p + "Cache"),
                             SetBuildPath(p + "/Build")]
  {
    BuildFolderIsPathSlashBuild(command.projectPath);
  }

  /** An existing build folder is not created again, and Start goes on to the license gate. */
  lemma ExistingBuildFolderKept(command: Command, dirs: set<string>, createSucceeds: bool,
                                startupErrors: string, win32: bool)
    requires command.requiresProjectLoad && command.loadSucceeds
    requires BuildFolder(command.projectPath) in dirs
    ensures var e := StartEffects([], false, Some(command), dirs, createSucceeds, startupErrors, win32);
      |e| == 5 && (forall k :: 0 <= k < |e| ==> !e[k].CreateDir?)
      && e[4] == (if command.requiresLicenseValidation then LicenseInitialize else Run)
    ensures StartDirs([], false, Some(command), dirs, createSucceeds) == dirs
  {
  }

  /** The calls of Start when the build folder is absent and creating it works. */
  lemma MissingBuildFolderEffects(command: Command, dirs: set<string>, startupErrors: string, win32: bool)
    requires command.requiresProjectLoad && command.loadSucceeds
    requires BuildFolder(command.projectPath) !in dirs
    ensures var p := command.projectPath;
      StartEffects([], false, Some(command), dirs, true, startupErrors, win32)
      == [LoadProject(p), AddResourceDir(ResourcesDir(p)), AddResourceDir(CacheDir(p)), SetBuildPath(BuildFolder(p))]
         + [CreateDir(BuildFolder(p))]
         + [if command.requiresLicenseValidation then LicenseInitialize else Run]
  {
    CommandEffectsSplit(command, dirs, true, startupErrors, win32);
  }

  /** An absent build folder is created exactly once; when that works, Start goes on. */
  lemma MissingBuildFolderCreated(command: Command, dirs: set<string>, startupErrors: string, win32: bool)
    requires command.requiresProjectLoad && command.loadSucceeds
    requires BuildFolder(command.projectPath) !in dirs
    ensures var e := StartEffects([], false, Some(command), dirs, true, startupErrors, win32);
      |e| == 6 && e[4] == CreateDir(command.projectPath + "/Build")
      && Occurrences(e, CreateDir(command.projectPath + "/Build")) == 1
      && e[5] == (if command.requiresLicenseValidation then LicenseInitialize else Run)
    ensures BuildFolder(command.projectPath) in StartDirs([], false, Some(command), dirs, true)
  {
    var p := command.projectPath;
    BuildFolderIsPathSlashBuild(p);
    var c := CreateDir(BuildFolder(p));
    var head := [LoadProject(p), AddResourceDir(ResourcesDir(p)), AddResourceDir(CacheDir(p)), SetBuildPath(BuildFolder(p))];
    var last := if command.requiresLicenseValidation then LicenseInitialize else Run;
    MissingBuildFolderEffects(command, dirs, startupErrors, win32);
    OccurrencesSnoc(head + [c], last, c);
    OccurrencesSnoc(head, c, c);
    OccurrencesZero(head, c);
  }

  /**
    When the build folder cannot be created, Start fails with "Failed to create
    build folder: " followed by the folder, and neither licensing nor Run follows.
   */
  lemma BuildFolderFailureStopsStart(command: Command, dirs: set<string>, startupErrors: string, win32: bool)
    requires command.requiresProjectLoad && command.loadSucceeds
    requires BuildFolder(command.projectPath) !in dirs
    ensures StartPathOf([], false, Some(command), dirs, false) == BuildFolderFailure
    ensures var e := StartEffects([], false, Some(command), dirs, false, startupErrors, win32);
      |e| == 7 && e[4..] == [CreateDir(command.projectPath + "/Build"), EngineExit,
                             Report("Failed to create build folder: " + command.projectPath + "/Build")]
      && LicenseInitialize !in e && Run !in e
    ensures StartDirs([], false, Some(command), dirs, false) == dirs
  {
    var p := command.projectPath;
    BuildFolderIsPathSlashBuild(p);
    assert BuildFolderFailurePrefix + BuildFolder(p) == "Failed to create build folder: " + p + "/Build";
  }

  // ----- Start: the license gate and Run -----

  /** The project preparation of a command, empty when it needs no project. */
  function Preparation(command: Command, dirs: set<string>, createSucceeds: bool,
                       startupErrors: string, win32: bool): (r: seq<Effect>)
    ensures Run !in r && LicenseInitialize !in r
    ensures Occurrences(r, Run) == 0
  {
    var r := if command.requiresProjectLoad then ProjectEffects(command, dirs, createSucceeds, startupErrors, win32)
             else [];
    ProjectEffectsBeforeGate(command, dirs, createSucceeds, startupErrors, win32);
    OccurrencesZero(r, Run);
    r
  }

  /** The calls of Start past the short-circuits are the preparation, then the gate or Run, if any. */
  lemma CommandEffectsSplit(command: Command, dirs: set<string>, createSucceeds: bool,
                            startupErrors: string, win32: bool)
    ensures var path := CommandPathOf(command, dirs, createSucceeds);
      CommandEffects(command, dirs, createSucceeds, startupErrors, win32)
      == Preparation(command, dirs, createSucceeds, startupErrors, win32)
         + (if path == LicenseGate then [LicenseInitialize] else if path == DirectRun then [Run] else [])
  {
  }

  /**
    Past the short-circuits, Start calls Run exactly on the direct path and
    then once; a command that needs a license gets LicenseSystem::Initialize()
    and no Run.
   */
  lemma CommandRunsAtMostOnce(command: Command, dirs: set<string>, createSucceeds: bool,
                              startupErrors: string, win32: bool)
    ensures Occurrences(CommandEffects(command, dirs, createSucceeds, startupErrors, win32), Run)
            == (if CommandPathOf(command, dirs, createSucceeds) == DirectRun then 1 else 0)
    ensures LicenseInitialize in CommandEffects(command, dirs, createSucceeds, startupErrors, win32)
            <==> CommandPathOf(command, dirs, createSucceeds) == LicenseGate
  {
    var path := CommandPathOf(command, dirs, createSucceeds);
    var prepare := Preparation(command, dirs, createSucceeds, startupErrors, win32);
    var gate: seq<Effect> := if path == LicenseGate then [LicenseInitialize] else if path == DirectRun then [Run] else [];
    CommandEffectsSplit(command, dirs, createSucceeds, startupErrors, win32);
    if gate == [] {
      assert prepare + gate == prepare;
    } else {
      OccurrencesSnoc(prepare, gate[0], Run);
    }
  }

  /** Over the whole of Start: Run at most once, and only on the direct path. */
  lemma StartRunsAtMostOnce(activationKey: string, deactivate: bool, command: Option<Command>,
                            dirs: set<string>, createSucceeds: bool, startupErrors: string, win32: bool)
    requires activationKey != [] || deactivate || command.Some?
    ensures var path := StartPathOf(activationKey, deactivate, command, dirs, createSucceeds);
      var e := StartEffects(activationKey, deactivate, command, dirs, createSucceeds, startupErrors, win32);
      && Occurrences(e, Run) == (if path == DirectRun then 1 else 0)
      && (LicenseInitialize in e <==> path == LicenseGate)
  {
    if activationKey != [] || deactivate {
      OccurrencesZero(StartEffects(activationKey, deactivate, command, dirs, createSucceeds, startupErrors, win32), Run);
    } else {
      CommandRunsAtMostOnce(command.value, dirs, createSucceeds, startupErrors, win32);
    }
  }

  /** ErrorExit reports, if at all, right after shutting the engine down. */
  lemma ErrorExitReportsAfterExit(message: string, startupErrors: string, win32: bool)
    ensures ReportsFollowExit(ErrorExitEffects(message, startupErrors, win32))
  {
    var e := ErrorExitEffects(message, startupErrors, win32);
    assert e[..|e| - 1][..0] == [];
    if |e| == 2 {
      assert e[..1] == [EngineExit];
    }
  }

  /** Whatever path Start takes, every report it issues comes right after an engine exit. */
  lemma StartReportsAfterExit(activationKey: string, deactivate: bool, command: Option<Command>,
                              dirs: set<string>, createSucceeds: bool, startupErrors: string, win32: bool)
    requires activationKey != [] || deactivate || command.Some?
    ensures ReportsFollowExit(StartEffects(activationKey, deactivate, command, dirs, createSucceeds,
                                           startupErrors, win32))
  {
    var e := StartEffects(activationKey, deactivate, command, dirs, createSucceeds, startupErrors, win32);
    if activationKey != [] || deactivate {
      NoReportsFollowExit(e);
    } else {
      var cmd := command.value;
      var p := cmd.projectPath;
      var folder := BuildFolder(p);
      var prepare :=
        if cmd.requiresProjectLoad then ProjectEffects(cmd, dirs, createSucceeds, startupErrors, win32) else [];
      if cmd.requiresProjectLoad {
        if !cmd.loadSucceeds {
          NoReportsFollowExit([LoadProject(p)]);
          ErrorExitReportsAfterExit(LoadFailurePrefix + p, startupErrors, win32);
          ReportsFollowExitAppend([LoadProject(p)], ErrorExitEffects(LoadFailurePrefix + p, startupErrors, win32));
        } else {
          var head := [LoadProject(p), AddResourceDir(ResourcesDir(p)), AddResourceDir(CacheDir(p)), SetBuildPath(folder)];
          NoReportsFollowExit(head);
          if folder in dirs || createSucceeds {
            NoReportsFollowExit(BuildFolderEffects(folder, dirs, createSucceeds, startupErrors, win32));
          } else {
            NoReportsFollowExit([CreateDir(folder)]);
            ErrorExitReportsAfterExit(BuildFolderFailurePrefix + folder, startupErrors, win32);
            ReportsFollowExitAppend([CreateDir(folder)],
                                    ErrorExitEffects(BuildFolderFailurePrefix + folder, startupErrors, win32));
          }
          ReportsFollowExitAppend(head, BuildFolderEffects(folder, dirs, createSucceeds, startupErrors, win32));
        }
      } else {
        NoReportsFollowExit(prepare);
      }
      var gate: seq<Effect> := match CommandPathOf(cmd, dirs, createSucceeds)
        case LicenseGate => [LicenseInitialize]
        case DirectRun => [Run]
        case _ => [];
      NoReportsFollowExit(gate);
      assert e == prepare + gate;
      ReportsFollowExitAppend(prepare, gate);
    }
  }

  // ----- The event handlers -----

  /** Among the handlers only HandleLicenseSuccess calls Run, once, and only when a command was selected. */
  lemma HandlersRunOnlyOnLicenseSuccess(ev: Event, command: Option<Command>, startupErrors: string, win32: bool)
    ensures Occurrences(HandleEffects(ev, command, startupErrors, win32), Run)
            == (if ev.LicenseSuccess? && command.Some? then 1 else 0)
  {
    var e := HandleEffects(ev, command, startupErrors, win32);
    if ev.LicenseSuccess? && command.Some? {
      assert e == [] + [Run];
      OccurrencesAppend([], [Run], Run);
    } else {
      OccurrencesZero(e, Run);
    }
  }

  /** EULA required, activation required and a license error all fail with the same activation text. */
  lemma LicenseRefusalsShareMessage(ev: Event, command: Option<Command>, startupErrors: string, win32: bool)
    requires ev.LicenseEulaRequired? || ev.LicenseActivationRequired? || ev.LicenseError?
    ensures IsFailureEvent(ev)
    ensures HandleEffects(ev, command, startupErrors, win32)
            == [EngineExit, Report("\nActivation Required: Please run: atomic-cli activate\n")]
  {
  }

  /** A command error reports the payload message, or "Command Error" when the payload is empty. */
  lemma CommandErrorMessage(message: string, command: Option<Command>, startupErrors: string, win32: bool)
    ensures HandleEffects(CommandError(message), command, startupErrors, win32)
            == [EngineExit, Report(if message == [] then "Command Error" else message)]
  {
  }

  /**
    Every handler except a license success with a selected command shuts the
    engine down; the failing ones do it first, and those are exactly the ones
    that set EXIT_FAILURE.
   */
  lemma HandlersExitEngine(ev: Event, command: Option<Command>, startupErrors: string, win32: bool)
    ensures var e := HandleEffects(ev, command, startupErrors, win32);
      && (EngineExit in e <==> !(ev.LicenseSuccess? && command.Some?))
      && (IsFailureEvent(ev) ==> e[0] == EngineExit)
      && (!IsFailureEvent(ev) ==> forall k :: 0 <= k < |e| ==> !e[k].Report?)
      && ReportsFollowExit(e)
  {
    var e := HandleEffects(ev, command, startupErrors, win32);
    assert e[..0] == [];
    if |e| == 2 {
      assert e[..1] == [e[0]];
      assert e[..2] == e;
    } else {
      assert e[..1] == e;
    }
  }

  /** On a non-WIN32 build an error exit with an empty message reports nothing, but still fails. */
  lemma EmptyMessageSilentOffWindows(startupErrors: string)
    ensures ErrorExitEffects([], startupErrors, false) == [EngineExit]
    ensures ErrorExitEffects([], startupErrors, true)
            == [EngineExit, Report(if startupErrors == [] then UnexpectedErrorText else startupErrors)]
  {
  }

  // ----- Whole invocations -----

  /**
    `build myproj` with a command that needs the project and no license, and no
    `myproj/Build` folder yet: the folder is created, the resource directories
    and build path are registered, Run is called once, and the tool exits with 0
    once the command finishes.
   */
  method BuildInvocation() returns (exitCode: int, runs: nat, created: bool, log: seq<Effect>)
    ensures exitCode == EXIT_SUCCESS && runs == 1 && created
    ensures log == [LoadProject("game"), AddResourceDir(ResourcesDir("game")), AddResourceDir(CacheDir("game")),
                    SetBuildPath("game/Build"), CreateDir("game/Build"), Run, EngineExit]
  {
    var fs := new FileSystem({}, true);
    var tool := new AtomicTool(fs, false);
    var command := Command(true, false, true, "game");
    tool.Setup(["build", "game"], true, ParseResult(Some(command), ""));
    var folder := BuildFolder("game");
    assert folder == "game/Build";
    var prepared := [LoadProject("game"), AddResourceDir(ResourcesDir("game")), AddResourceDir(CacheDir("game")),
                     SetBuildPath(folder), CreateDir(folder)];
    assert CommandEffects(command, {}, true, [], false) == prepared + [Run];
    tool.Start();
    tool.Handle(CommandFinished);
    exitCode, runs, created, log := tool.exitCode, tool.runCount, folder in fs.dirs, tool.effects;
  }

  /**
    `publish` with a command that needs a license: Start only initialises the
    license system; on EULA required the tool fails with the activation text
    and Run is never called.
   */
  method PublishNeedsEula() returns (exitCode: int, runs: nat, log: seq<Effect>)
    ensures exitCode == EXIT_FAILURE && runs == 0
    ensures log == [LicenseInitialize, EngineExit, Report(ActivationRequiredText)]
  {
    var fs := new FileSystem({}, true);
    var tool := new AtomicTool(fs, false);
    tool.Setup(["publish"], true, ParseResult(Some(Command(false, true, true, "")), ""));
    tool.Start();
    tool.Handle(LicenseEulaRequired);
    exitCode, runs, log := tool.exitCode, tool.runCount, tool.effects;
  }

  /**
    With an activation key the selected command is never prepared or run: only
    the activation runs, and the tool exits with 0 on its success.
   */
  method ActivationOnly() returns (exitCode: int, runs: nat, log: seq<Effect>)
    ensures exitCode == EXIT_SUCCESS && runs == 0
    ensures log == [LicenseAgreementConfirmed, LogRaw(ActivationSuccessText), EngineExit]
  {
    var fs := new FileSystem({}, true);
    var tool := new AtomicTool(fs, false);
    tool.Setup(["build", "myproj"], true, ParseResult(Some(Command(true, true, true, "myproj")), ""));
    tool.activationKey := "XXXX-XXXX";
    tool.Start();
    tool.Handle(LicenseActivationSuccess);
    exitCode, runs, log := tool.exitCode, tool.runCount, tool.effects;
  }

  /**
    When the parser selects no command and gives no message, Setup fails with
    "No command found" and leaves "ResourcePaths" unset.
   */
  method NoCommandFound() returns (exitCode: int, log: seq<Effect>, resourcePathsSet: bool)
    ensures exitCode == EXIT_FAILURE && !resourcePathsSet
    ensures log == [EngineExit, Report("No command found")]
  {
    var fs := new FileSystem({}, true);
    var tool := new AtomicTool(fs, false);
    tool.Setup(["-loglevel", "3"], true, ParseResult(None, ""));
    exitCode, log, resourcePathsSet := tool.exitCode, tool.effects, "ResourcePaths" in tool.engineParameters;
  }

  /**
    The token after `-loglevel` is never seen as a flag by the argument loop,
    but the exact-token check that comes first in Setup still catches a
    literal `-toolbootstrap` there.
   */
  method ExactBootstrapTokenCaught() returns (bootstrapping: bool)
    ensures bootstrapping
  {
    var fs := new FileSystem({}, true);
    var tool := new AtomicTool(fs, false);
    tool.Setup(["-loglevel", "-toolbootstrap"], true, ParseResult(None, ""));
    bootstrapping := tool.bootstrapping;
  }

  /** A differently cased `-TOOLBOOTSTRAP` after `-loglevel` is missed by both checks of Setup. */
  method SwallowedBootstrapFlagMissed() returns (bootstrapping: bool)
    ensures !bootstrapping
  {
    var fs := new FileSystem({}, true);
    var tool := new AtomicTool(fs, false);
    var args := ["-loglevel", "-TOOLBOOTSTRAP"];
    ValueTokenIsNotAFlag("-TOOLBOOTSTRAP", []);
    assert args[1][1] == 'T';
    assert "-toolbootstrap" !in args;
    tool.Setup(args, true, ParseResult(None, ""));
    bootstrapping := tool.bootstrapping;
  }

  /**
    Nothing guards against a second terminal event: a command error that
    arrives after the command finished still turns the exit code to failure.
   */
  method ErrorAfterFinish() returns (exitCode: int, log: seq<Effect>)
    ensures exitCode == EXIT_FAILURE
    ensures log == [Run, EngineExit, EngineExit, Report("boom")]
  {
    var fs := new FileSystem({}, true);
    var tool := new AtomicTool(fs, false);
    var command := Command(false, false, true, "");
    tool.Setup(["clean"], true, ParseResult(Some(command), ""));
    assert CommandEffects(command, {}, true, [], false) == [Run];
    tool.Start();
    assert tool.effects == [Run] && tool.exitCode == EXIT_SUCCESS;
    tool.Handle(CommandFinished);
    tool.Handle(CommandError("boom"));
    exitCode, log := tool.exitCode, tool.effects;
  }
}
