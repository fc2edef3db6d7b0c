/**
  The lifecycle of the atomic-cli front end, class AtomicTool: Setup scans the
  arguments and selects a command, Start either short-circuits into
  activation or deactivation or prepares the project and passes the license
  gate, and the event handlers map each terminal event to an engine exit or to
  ErrorExit. Every call into a collaborator is appended to `effects`.
 */
module Tool {
  import opened Effects
  import opened Arguments
  import opened ExitController
  import opened Environment

  /** The terminal events the tool reacts to, with their payload messages. */
  datatype Event =
    | CommandFinished
    | CommandError(message: string)
    | LicenseEulaRequired
    | LicenseActivationRequired
    | LicenseError
    | LicenseSuccess
    | LicenseActivationError(message: string)
    | LicenseActivationSuccess
    | LicenseDeactivationError(message: string)
    | LicenseDeactivationSuccess

  /** A value of the engine parameter map. */
  datatype Param = Flag(b: bool) | Level(level: LogLevel) | Text(s: string)

  /** The engine parameters after Setup got past the environment check. */
  function SetupParameters(params: map<string, Param>, args: seq<string>, selected: bool): (r: map<string, Param>)
    ensures r.Keys == params.Keys + {"Headless", "LogLevel"} + (if selected then {"ResourcePaths"} else {})
    ensures r["Headless"] == Flag(true)
    ensures r["LogLevel"] == Level(Scan(args).logLevel)
    ensures selected ==> r["ResourcePaths"] == Text("")
    ensures !selected ==> ("ResourcePaths" in r <==> "ResourcePaths" in params)
    ensures !selected && "ResourcePaths" in params ==> r["ResourcePaths"] == params["ResourcePaths"]
    ensures forall k :: k in params && k !in {"Headless", "LogLevel", "ResourcePaths"} ==> r[k] == params[k]
  {
    var p := params["Headless" := Flag(true)]["LogLevel" := Level(Scan(args).logLevel)];
    if selected then p["ResourcePaths" := Text("")] else p
  }

  /** The branch Start takes. */
  datatype StartPath =
    | Activation            // an activation key is present
    | Deactivation          // the deactivate flag is set
    | LoadFailure           // the project could not be loaded
    | BuildFolderFailure    // the build folder is absent and could not be created
    | LicenseGate           // the license system is initialised; Run waits for its success event
    | DirectRun             // Run is called at once

  /** The branch Start takes once neither activation nor deactivation is requested. */
  function CommandPathOf(command: Command, dirs: set<string>, createSucceeds: bool): (path: StartPath)
    ensures path != Activation && path != Deactivation
  {
    if command.requiresProjectLoad && !command.loadSucceeds then LoadFailure
    else if command.requiresProjectLoad && BuildFolder(command.projectPath) !in dirs && !createSucceeds
    then BuildFolderFailure
    else if command.requiresLicenseValidation then LicenseGate
    else DirectRun
  }

  function StartPathOf(activationKey: string, deactivate: bool, command: Option<Command>,
                       dirs: set<string>, createSucceeds: bool): StartPath
    requires activationKey != [] || deactivate || command.Some?
  {
    if |activationKey| > 0 then Activation
    else if deactivate then Deactivation
    else CommandPathOf(command.value, dirs, createSucceeds)
  }

  /** The calls of the build folder check: create it when absent, fail when it is still absent. */
  function BuildFolderEffects(folder: string, dirs: set<string>, createSucceeds: bool,
                              startupErrors: string, win32: bool): seq<Effect>
  {
    if folder in dirs then []
    else [CreateDir(folder)]
         + (if createSucceeds then [] else ErrorExitEffects(BuildFolderFailurePrefix + folder, startupErrors, win32))
  }

  /** The calls of the project preparation of a command that requires a project. */
  function ProjectEffects(command: Command, dirs: set<string>, createSucceeds: bool,
                          startupErrors: string, win32: bool): seq<Effect>
  {
    var p := command.projectPath;
    if !command.loadSucceeds then
      [LoadProject(p)] + ErrorExitEffects(LoadFailurePrefix + p, startupErrors, win32)
    else
      [LoadProject(p), AddResourceDir(ResourcesDir(p)), AddResourceDir(CacheDir(p)), SetBuildPath(BuildFolder(p))]
      + BuildFolderEffects(BuildFolder(p), dirs, createSucceeds, startupErrors, win32)
  }

  /** The calls Start makes for the selected command: preparation, then the license gate or Run. */
  function CommandEffects(command: Command, dirs: set<string>, createSucceeds: bool,
                          startupErrors: string, win32: bool): seq<Effect>
  {
    var prepare :=
      if command.requiresProjectLoad then ProjectEffects(command, dirs, createSucceeds, startupErrors, win32) else [];
    match CommandPathOf(command, dirs, createSucceeds)
    case LicenseGate => prepare + [LicenseInitialize]
    case DirectRun => prepare + [Run]
    case _ => prepare
  }

  /** The calls Start makes, in order. */
  function StartEffects(activationKey: string, deactivate: bool, command: Option<Command>,
                        dirs: set<string>, createSucceeds: bool, startupErrors: string, win32: bool): seq<Effect>
    requires activationKey != [] || deactivate || command.Some?
  {
    if |activationKey| > 0 then [LicenseAgreementConfirmed]
    else if deactivate then []
    else CommandEffects(command.value, dirs, createSucceeds, startupErrors, win32)
  }

  /** The directories that exist after Start. */
  function StartDirs(activationKey: string, deactivate: bool, command: Option<Command>,
                     dirs: set<string>, createSucceeds: bool): set<string>
    requires activationKey != [] || deactivate || command.Some?
  {
    if activationKey == [] && !deactivate && command.value.requiresProjectLoad && command.value.loadSucceeds
       && createSucceeds
    then dirs + {BuildFolder(command.value.projectPath)}
    else dirs
  }

  /** The events whose handler goes through ErrorExit. */
  predicate IsFailureEvent(ev: Event)
  {
    ev.CommandError? || ev.LicenseEulaRequired? || ev.LicenseActivationRequired? || ev.LicenseError?
    || ev.LicenseActivationError? || ev.LicenseDeactivationError?
  }

  /** The calls the handler of `ev` makes. */
  function HandleEffects(ev: Event, command: Option<Command>, startupErrors: string, win32: bool): seq<Effect>
  {
    match ev
    case CommandFinished => [EngineExit]
    case CommandError(m) => ErrorExitEffects(MessageOr(m, CommandErrorText), startupErrors, win32)
    case LicenseEulaRequired => ErrorExitEffects(ActivationRequiredText, startupErrors, win32)
    case LicenseActivationRequired => ErrorExitEffects(ActivationRequiredText, startupErrors, win32)
    case LicenseError => ErrorExitEffects(ActivationRequiredText, startupErrors, win32)
    case LicenseSuccess => if command.None? then [EngineExit] else [Run]
    case LicenseActivationError(m) => ErrorExitEffects(m, startupErrors, win32)
    case LicenseActivationSuccess => [LogRaw(ActivationSuccessText), EngineExit]
    case LicenseDeactivationError(m) => ErrorExitEffects(m, startupErrors, win32)
    case LicenseDeactivationSuccess => [LogRaw(DeactivationSuccessText), EngineExit]
  }

  class AtomicTool {
    /** Application::exitCode_. */
    var exitCode: int
    /** Every call into a collaborator so far, in order. */
    var effects: seq<Effect>
    /** How many times Command::Run() was called. */
    var runCount: nat
    /** Whether Engine::Exit() was called. */
    var engineExited: bool
    /** activationKey_: never assigned in this class, set from outside. */
    var activationKey: string
    /** deactivate_: false on construction, set from outside. */
    var deactivate: bool
    /** command_: the command the parser selected, if any. */
    var command: Option<Command>
    /** Application::engineParameters_. */
    var engineParameters: map<string, Param>
    /** ToolEnvironment::SetBootstrapping() was called. */
    var bootstrapping: bool
    /** Application::startupErrors_: early error text, set from outside. */
    var startupErrors: string
    /** Whether the tool is built for WIN32. */
    const win32: bool
    const fileSystem: FileSystem

    ghost predicate Valid()
      reads this
    {
      && (engineExited <==> EngineExit in effects)
      && (exitCode == EXIT_SUCCESS || exitCode == EXIT_FAILURE)
      && (exitCode == EXIT_FAILURE ==> engineExited)
    }

    constructor (fileSystem: FileSystem, win32: bool)
      ensures Valid()
      ensures this.fileSystem == fileSystem && this.win32 == win32
      ensures exitCode == EXIT_SUCCESS && effects == [] && runCount == 0 && !engineExited
      ensures activationKey == [] && !deactivate && command == None
      ensures engineParameters == map[] && !bootstrapping && startupErrors == []
    {
      this.fileSystem := fileSystem;
      this.win32 := win32;
      exitCode := EXIT_SUCCESS;
      effects := [];
      runCount := 0;
      engineExited := false;
      activationKey := [];
      deactivate := false;
      command := None;
      engineParameters := map[];
      bootstrapping := false;
      startupErrors := [];
    }

    /** Issues one call into a collaborator. */
    method Record(e: Effect)
      requires Valid()
      modifies this`effects, this`runCount, this`engineExited
      ensures Valid()
      ensures effects == old(effects) + [e]
      ensures runCount == old(runCount) + (if e == Run then 1 else 0)
      ensures engineExited == (old(engineExited) || e == EngineExit)
    {
      effects := effects + [e];
      if e == Run {
        runCount := runCount + 1;
      }
      if e == EngineExit {
        engineExited := true;
      }
    }

    /** AtomicTool::ErrorExit: shut the engine down, then fail, then report. */
    method ErrorExit(message: string)
      requires Valid()
      modifies this`effects, this`runCount, this`engineExited, this`exitCode
      ensures Valid()
      ensures effects == old(effects) + ErrorExitEffects(message, startupErrors, win32)
      ensures exitCode == EXIT_FAILURE && engineExited
      ensures runCount == old(runCount)
    {
      Record(EngineExit);
      exitCode := EXIT_FAILURE;
      if |message| == 0 {
        if win32 {
          Record(Report(if |startupErrors| > 0 then startupErrors else UnexpectedErrorText));
        }
      } else {
        Record(Report(message));
      }
    }

    /** The engine parameters and the argument loop of AtomicTool::Setup. */
    method ApplyArguments(args: seq<string>)
      modifies this`bootstrapping, this`engineParameters
      ensures bootstrapping == (old(bootstrapping) || Scan(args).bootstrap)
      ensures engineParameters == old(engineParameters)["Headless" := Flag(true)]["LogLevel" := Level(Scan(args).logLevel)]
    {
      engineParameters := engineParameters["Headless" := Flag(true)];
      engineParameters := engineParameters["LogLevel" := Level(LogInfo)];
      var scanned := ScanArguments(args);
      if scanned.bootstrap {
        bootstrapping := true;
      }
      engineParameters := engineParameters["LogLevel" := Level(scanned.logLevel)];
    }

    /**
      AtomicTool::Setup, given the arguments, whether the tool environment
      initialised, and the command parser's answer.
     */
    method Setup(args: seq<string>, environmentReady: bool, parsed: ParseResult)
      requires Valid()
      modifies this`bootstrapping, this`engineParameters, this`command,
               this`effects, this`runCount, this`engineExited, this`exitCode
      ensures Valid()
      ensures bootstrapping == (old(bootstrapping) || "-toolbootstrap" in args || (environmentReady && Scan(args).bootstrap))
      ensures runCount == old(runCount)
      ensures !environmentReady ==>
        && effects == old(effects) + ErrorExitEffects(EnvironmentFailureText, startupErrors, win32)
        && exitCode == EXIT_FAILURE
        && engineParameters == old(engineParameters) && command == old(command)
      ensures environmentReady ==>
        && command == parsed.command
        && engineParameters == SetupParameters(old(engineParameters), args, parsed.command.Some?)
      ensures environmentReady && parsed.command.None? ==>
        && effects == old(effects) + ErrorExitEffects(MessageOr(parsed.errorMessage, NoCommandText), startupErrors, win32)
        && exitCode == EXIT_FAILURE
      ensures environmentReady && parsed.command.Some? ==> effects == old(effects) && exitCode == old(exitCode)
    {
      if "-toolbootstrap" in args {
        bootstrapping := true;
      }
      if !environmentReady {
        ErrorExit(EnvironmentFailureText);
        return;
      }
      ghost var params := engineParameters;
      ApplyArguments(args);
      command := parsed.command;
      if command.None? {
        var error := NoCommandText;
        if |parsed.errorMessage| > 0 {
          error := parsed.errorMessage;
        }
        assert error == MessageOr(parsed.errorMessage, NoCommandText);
        ErrorExit(error);
        return;
      }
      engineParameters := engineParameters["ResourcePaths" := Text("")];
      assert engineParameters == SetupParameters(params, args, true);
    }

    /** AtomicTool::DoActivation: confirm the license agreement and wait for its events. */
    method DoActivation()
      requires Valid()
      modifies this`effects, this`runCount, this`engineExited
      ensures Valid()
      ensures effects == old(effects) + [LicenseAgreementConfirmed]
      ensures runCount == old(runCount) && engineExited == old(engineExited)
    {
      Record(LicenseAgreementConfirmed);
    }

    /** AtomicTool::DoDeactivation: does nothing. */
    method DoDeactivation()
      ensures unchanged(this)
    {
    }

    /** Command::Run() on the selected command. */
    method RunCommand()
      requires Valid()
      modifies this`effects, this`runCount, this`engineExited
      ensures Valid()
      ensures effects == old(effects) + [Run]
      ensures runCount == old(runCount) + 1 && engineExited == old(engineExited)
    {
      Record(Run);
    }

    /** The build folder check of AtomicTool::Start: check, create when absent, check again. */
    method EnsureBuildFolder(buildFolder: string) returns (ok: bool)
      requires Valid()
      modifies this`effects, this`runCount, this`engineExited, this`exitCode, fileSystem`dirs
      ensures Valid()
      ensures ok <==> buildFolder in old(fileSystem.dirs) || fileSystem.createSucceeds
      ensures ok <==> buildFolder in fileSystem.dirs
      ensures fileSystem.dirs == old(fileSystem.dirs) + (if fileSystem.createSucceeds then {buildFolder} else {})
      ensures effects == old(effects) + BuildFolderEffects(buildFolder, old(fileSystem.dirs), fileSystem.createSucceeds,
                                                           startupErrors, win32)
      ensures exitCode == if ok then old(exitCode) else EXIT_FAILURE
      ensures runCount == old(runCount)
    {
      ok := fileSystem.DirExists(buildFolder);
      if !ok {
        fileSystem.CreateDir(buildFolder);
        Record(CreateDir(buildFolder));
        ok := fileSystem.DirExists(buildFolder);
        if !ok {
          ErrorExit(BuildFolderFailurePrefix + buildFolder);
        }
      }
    }

    /** The project preparation of AtomicTool::Start, for a command that requires a project. */
    method PrepareProject(cmd: Command) returns (ok: bool)
      requires Valid()
      modifies this`effects, this`runCount, this`engineExited, this`exitCode, fileSystem`dirs
      ensures Valid()
      ensures ok <==> cmd.loadSucceeds && (BuildFolder(cmd.projectPath) in old(fileSystem.dirs) || fileSystem.createSucceeds)
      ensures fileSystem.dirs ==
        old(fileSystem.dirs) + (if cmd.loadSucceeds && fileSystem.createSucceeds then {BuildFolder(cmd.projectPath)} else {})
      ensures effects == old(effects) + ProjectEffects(cmd, old(fileSystem.dirs), fileSystem.createSucceeds,
                                                       startupErrors, win32)
      ensures exitCode == if ok then old(exitCode) else EXIT_FAILURE
      ensures runCount == old(runCount)
    {
      ghost var before := effects;
      Record(LoadProject(cmd.projectPath));
      if !cmd.loadSucceeds {
        ErrorExit(LoadFailurePrefix + cmd.projectPath);
        return false;
      }
      var projectPath := cmd.projectPath;
      Record(AddResourceDir(ResourcesDir(projectPath)));
      Record(AddResourceDir(CacheDir(projectPath)));
      var buildFolder := BuildFolder(projectPath);
      Record(SetBuildPath(buildFolder));
      assert effects == before + [LoadProject(projectPath), AddResourceDir(ResourcesDir(projectPath)),
                                  AddResourceDir(CacheDir(projectPath)), SetBuildPath(buildFolder)];
      ok := EnsureBuildFolder(buildFolder);
    }

    /** AtomicTool::Start past the activation and deactivation checks. */
    method StartCommand(cmd: Command)
      requires Valid()
      modifies this`effects, this`runCount, this`engineExited, this`exitCode, fileSystem`dirs
      ensures Valid()
      ensures effects == old(effects) + CommandEffects(cmd, old(fileSystem.dirs), fileSystem.createSucceeds,
                                                       startupErrors, win32)
      ensures fileSystem.dirs ==
        old(fileSystem.dirs)
        + (if cmd.requiresProjectLoad && cmd.loadSucceeds && fileSystem.createSucceeds then {BuildFolder(cmd.projectPath)} else {})
      ensures var path := CommandPathOf(cmd, old(fileSystem.dirs), fileSystem.createSucceeds);
        && exitCode == (if path == LoadFailure || path == BuildFolderFailure then EXIT_FAILURE else old(exitCode))
        && runCount == old(runCount) + (if path == DirectRun then 1 else 0)
    {
      if cmd.requiresProjectLoad {
        var prepared := PrepareProject(cmd);
        if !prepared {
          return;
        }
      }

      if cmd.requiresLicenseValidation {
        Record(LicenseInitialize);
      } else {
        RunCommand();
      }
    }

    /** AtomicTool::Start. */
    method Start()
      requires Valid()
      requires activationKey != [] || deactivate || command.Some?
      modifies this`effects, this`runCount, this`engineExited, this`exitCode, fileSystem`dirs
      ensures Valid()
      ensures effects == old(effects) + StartEffects(activationKey, deactivate, command, old(fileSystem.dirs),
                                                     fileSystem.createSucceeds, startupErrors, win32)
      ensures fileSystem.dirs == StartDirs(activationKey, deactivate, command, old(fileSystem.dirs), fileSystem.createSucceeds)
      ensures var path := StartPathOf(activationKey, deactivate, command, old(fileSystem.dirs), fileSystem.createSucceeds);
        && exitCode == (if path == LoadFailure || path == BuildFolderFailure then EXIT_FAILURE else old(exitCode))
        && runCount == old(runCount) + (if path == DirectRun then 1 else 0)
    {
      if |activationKey| > 0 {
        DoActivation();
        return;
      } else if deactivate {
        DoDeactivation();
        return;
      }
      StartCommand(command.value);
    }

    /** The event handlers, HandleCommandFinished to HandleLicenseDeactivationSuccess. */
    method Handle(ev: Event)
      requires Valid()
      modifies this`effects, this`runCount, this`engineExited, this`exitCode
      ensures Valid()
      ensures effects == old(effects) + HandleEffects(ev, command, startupErrors, win32)
      ensures exitCode == if IsFailureEvent(ev) then EXIT_FAILURE else old(exitCode)
      ensures runCount == old(runCount) + (if ev.LicenseSuccess? && command.Some? then 1 else 0)
    {
      match ev
      case CommandFinished =>
        Record(EngineExit);
      case CommandError(message) =>
        var error := CommandErrorText;
        if |message| > 0 {
          error := message;
        }
        ErrorExit(error);
      case LicenseEulaRequired =>
        ErrorExit(ActivationRequiredText);
      case LicenseActivationRequired =>
        ErrorExit(ActivationRequiredText);
      case LicenseError =>
        ErrorExit(ActivationRequiredText);
      case LicenseSuccess =>
        if command.None? {
          Record(EngineExit);
          return;
        }
        RunCommand();
      case LicenseActivationError(message) =>
        ErrorExit(message);
      case LicenseActivationSuccess =>
        Record(LogRaw(ActivationSuccessText));
        Record(EngineExit);
      case LicenseDeactivationError(message) =>
        ErrorExit(message);
      case LicenseDeactivationSuccess =>
        Record(LogRaw(DeactivationSuccessText));
        Record(EngineExit);
    }
  }
}
