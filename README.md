# AtomicTool lifecycle model

This project models `AtomicTool`, the lifecycle orchestrator of the `atomic-cli` command-line tool, in Dafny and proves what it guarantees. It covers the following parts of `Source/AtomicTool/AtomicTool.cpp`:

- **Setup**: the argument scan, the engine parameters it writes, the environment check and the selection of a command.
- **Start**:
  - the activation and deactivation short-circuits;
  - project preparation: load the project, add the resource directories, set the build path, then check, create and re-check the build folder;
  - the license gate: `LicenseSystem::Initialize()` or a direct `Run()`.
- **The event handlers**, `DoActivation` and `DoDeactivation`.
- **ErrorExit**, the single failure path.

How the model is built:

- **AtomicTool is a class.** The source updates `exitCode`, `command` and `engineParameters` in place. `deactivate` is initialised to false and never assigned again in this file, and `activationKey` is never assigned in it at all: both are set from outside. The `bootstrapping` field stands for the `ToolEnvironment::SetBootstrapping()` state that Setup turns on; in the source that state belongs to `ToolEnvironment`, not to `AtomicTool`.
- **Calls into collaborators are recorded.** Every call that acts on a collaborator (the engine, resource cache, build system, file system, license system, command or error channel) is appended to an `effects` log. The queries `DirExists`, `RequiresProjectLoad`, `RequiresLicenseValidation` and `GetProjectPath` change nothing and are not logged: they are read from the abstract state (the file system's directory set and the command's fields). `runCount` counts the calls to `Command::Run()` and `engineExited` records that `Engine::Exit()` was called.
- **The file system is a class.** `FileSystem` holds the set of existing directories and whether `CreateDir` succeeds.
- **Each method has a specification function.** Each state-changing method is proved equal to a pure function of its inputs and old state: `Scan`, `SetupParameters`, `ErrorExitEffects`, `ProjectEffects`, `CommandEffects`, `StartEffects`, `StartDirs` and `HandleEffects`. The lemmas in `properties.dfy` state the tool's guarantees about those functions.
- **Concrete invocations are scenario methods.** A handful of methods run whole invocations on concrete inputs, such as `build`, `publish` with a EULA, activation, a missing command, and a late error.

Files:

- `effects.dfy`: the effect log, occurrence counting, and the "every report follows an engine exit" predicate.
- `arguments.dfy`: flag recognition and the argument scan of Setup, as a specification function and as a loop.
- `exit_controller.dfy`: the fixed texts, the message fallbacks and what ErrorExit does.
- `environment.dfy`: the selected command, the parser's answer, the derived paths and the file system.
- `tool.dfy`: the AtomicTool class, and the specification functions of Setup, Start and the handlers.
- `properties.dfy`: the lifecycle lemmas and the scenario methods.

## Model

| member | source | states |
|---|---|---|
| Arguments.LowerChar | Source/AtomicTool/AtomicTool.cpp:85 | upper-case ASCII letters map to their lower-case letter; every other character is unchanged; the result is never upper-case |
| Arguments.ToLower | Source/AtomicTool/AtomicTool.cpp:85 | same length; each character is lower-cased in place; the result holds no upper-case letter |
| Arguments.ScanArguments | Source/AtomicTool/AtomicTool.cpp:81-98 | the index loop (where `-loglevel` skips the next token) computes exactly `Scan(args)`: bootstrapping is on exactly when the loop inspects a `toolbootstrap` flag (`BootstrapSeenWhenVisited`, `BootstrapNeedsVisitedFlag`), and the level is set by the last inspected `-loglevel` flag (`FlagSetsLevel`, `LastFlagWins`) |
| Arguments.LogLevelKeptWithoutFlag | Source/AtomicTool/AtomicTool.cpp:79-98 | without a `-loglevel` flag the log level stays LOG_INFO |
| Arguments.LogLevelComesAfterFlag | Source/AtomicTool/AtomicTool.cpp:86-95 | a log level set by the scan is either the token right after a `-loglevel` flag, or empty when that flag is the last argument |
| Arguments.BootstrapNeedsFlag | Source/AtomicTool/AtomicTool.cpp:83-91 | the scan turns bootstrapping on only if some token is a `toolbootstrap` flag (case-insensitive, after one `-`) |
| Arguments.BootstrapSeenWhenVisited | Source/AtomicTool/AtomicTool.cpp:81-91 | a `toolbootstrap` flag the loop inspects turns bootstrapping on, whatever `-loglevel` flags come before or after it |
| Arguments.BootstrapStays | Source/AtomicTool/AtomicTool.cpp:81-98 | once bootstrapping is on, the rest of the loop never turns it off |
| Arguments.BootstrapNeedsVisitedFlag | Source/AtomicTool/AtomicTool.cpp:81-95 | the scan turns bootstrapping on only at a `toolbootstrap` flag it inspects, never at one skipped as a `-loglevel` value |
| Arguments.BootstrapSeenWithoutLogLevel | Source/AtomicTool/AtomicTool.cpp:83-95 | with no `-loglevel` flag, the scan turns bootstrapping on exactly when some token is a `toolbootstrap` flag |
| Arguments.ValueTokenIsNotAFlag | Source/AtomicTool/AtomicTool.cpp:92-95 | for every value token and every continuation, the token after a leading `-loglevel` becomes the level and the scan resumes after it, so the scan never treats that token as a flag (the scan's own `bootstrap` stays false for `-loglevel -toolbootstrap`; Setup's exact-token check at line 62 is separate) |
| Arguments.FlagSetsLevel | Source/AtomicTool/AtomicTool.cpp:92-95 | whenever some token from the scan's start on is a `-loglevel` flag, the scan ends with a level taken from a token |
| Arguments.VisitsBeforeFirstLevelFlag | Source/AtomicTool/AtomicTool.cpp:81-95 | every position up to the first `-loglevel` flag is inspected by the loop rather than skipped as a value |
| Arguments.LastFlagWins | Source/AtomicTool/AtomicTool.cpp:92-95 | the last inspected `-loglevel` flag decides the level: its following token, or the empty string when it is the last argument |
| Arguments.FlagNameIgnoresCase | Source/AtomicTool/AtomicTool.cpp:83-94 | `-LogLevel` is recognised as the log-level flag; when it is last, the level is the empty string |
| Environment.ProjectPathJoins | Source/AtomicTool/AtomicTool.cpp:245-249 | for every project path, the character right after it is 'R' or 'C' in the resource directories (no separator is inserted) and '/' in the build folder |
| Environment.FileSystem.DirExists | Source/AtomicTool/AtomicTool.cpp:253 | answers whether the path is among the existing directories |
| Environment.FileSystem.CreateDir | Source/AtomicTool/AtomicTool.cpp:255 | adds the path to the directories when creation succeeds, and changes nothing otherwise |
| ExitController.MessageOr | Source/AtomicTool/AtomicTool.cpp:105-108 | a non-empty message wins; an empty one gives the fallback; a non-empty fallback gives a non-empty result |
| ExitController.ReportedMessage | Source/AtomicTool/AtomicTool.cpp:296-304 | a non-empty message is reported verbatim; an empty one is reported only on WIN32, as the startup errors or else the unexpected-error text; nothing is reported exactly when the message is empty and the build is not WIN32 |
| ExitController.ErrorExitEffects | Source/AtomicTool/AtomicTool.cpp:290-305 | the engine is always shut down first, followed by at most one report; exactly `[exit, report(message)]` for a non-empty message; never a license call or Run |
| Tool.SetupParameters | Source/AtomicTool/AtomicTool.cpp:78-115 | after the environment check the engine is Headless and LogLevel holds the scan's level; "ResourcePaths" is set to "" only when a command was selected, and is otherwise left as it was; every other parameter keeps its value |
| Tool.CommandPathOf | Source/AtomicTool/AtomicTool.cpp:234-280 | past the short-circuits, the path is a load failure, a build-folder failure, the license gate or a direct run, never activation or deactivation |
| Tool.AtomicTool.constructor | Source/AtomicTool/AtomicTool.cpp:46-51 | `deactivate` starts false; no command; exit code 0; no calls made yet |
| Tool.AtomicTool.ErrorExit | Source/AtomicTool/AtomicTool.cpp:290-305 | shuts the engine down, sets EXIT_FAILURE whatever the message, and reports as `ErrorExitEffects` says; Run is never counted |
| Tool.AtomicTool.ApplyArguments | Source/AtomicTool/AtomicTool.cpp:78-98 | writes Headless = true and LogLevel = LOG_INFO, then the scanned level, and turns bootstrapping on when the scan saw the flag |
| Tool.AtomicTool.Setup | Source/AtomicTool/AtomicTool.cpp:58-126 | an exact `-toolbootstrap` token turns bootstrapping on before anything else; if the environment fails, ErrorExit runs with "Unable to initialize tool environment" and the parameters are untouched; otherwise the parameters are `SetupParameters`, and with no command ErrorExit runs with the parser's message or "No command found"; with a command, no call is made and the exit code is kept |
| Tool.AtomicTool.DoActivation | Source/AtomicTool/AtomicTool.cpp:182-191 | only confirms the license agreement: no Run, no engine exit |
| Tool.AtomicTool.DoDeactivation | Source/AtomicTool/AtomicTool.cpp:205-207 | changes nothing |
| Tool.AtomicTool.RunCommand | Source/AtomicTool/AtomicTool.cpp:162 | calls Run once, without exiting the engine |
| Tool.AtomicTool.EnsureBuildFolder | Source/AtomicTool/AtomicTool.cpp:252-262 | succeeds exactly when the folder existed or creation succeeds; CreateDir is issued only when the folder was absent; failure ends in ErrorExit with "Failed to create build folder: " and the folder |
| Tool.AtomicTool.PrepareProject | Source/AtomicTool/AtomicTool.cpp:234-262 | issues exactly `ProjectEffects`; succeeds exactly when the load succeeds and the build folder exists or can be created; the build folder is the only directory that may be added |
| Tool.AtomicTool.StartCommand | Source/AtomicTool/AtomicTool.cpp:232-280 | issues exactly `CommandEffects`; fails only on the load and build-folder failure paths; counts one Run only on the direct path |
| Tool.AtomicTool.Start | Source/AtomicTool/AtomicTool.cpp:209-283 | issues exactly `StartEffects`; the directories afterwards are `StartDirs`; the exit code becomes EXIT_FAILURE only on the two failure paths; Run is counted once only on the direct path |
| Tool.AtomicTool.Handle | Source/AtomicTool/AtomicTool.cpp:128-203 | issues exactly `HandleEffects`; the exit code becomes EXIT_FAILURE exactly on the failure events; Run is counted only for a license success with a selected command |
| ToolProperties.SetupDefaults | Source/AtomicTool/AtomicTool.cpp:78-79 | Headless is true and, without a `-loglevel` flag, LogLevel is LOG_INFO |
| ToolProperties.ActivationShortCircuits | Source/AtomicTool/AtomicTool.cpp:222-225 | with an activation key, Start only confirms the license agreement, even if deactivate is also set, and no directory changes |
| ToolProperties.DeactivationShortCircuits | Source/AtomicTool/AtomicTool.cpp:226-230 | with deactivate set and no key, Start makes no call at all and no directory changes |
| ToolProperties.NoProjectNoPreparation | Source/AtomicTool/AtomicTool.cpp:234-280 | a command that needs no project gets exactly one call: the license initialisation or Run |
| ToolProperties.LoadFailureStopsStart | Source/AtomicTool/AtomicTool.cpp:236-240 | a failed load gives exactly the load call, then an engine exit, then "Failed to load project: " and the path; nothing follows |
| ToolProperties.PreparationOrder | Source/AtomicTool/AtomicTool.cpp:242-250 | after a successful load of P, the calls are: the load, then P+"Resources", then P+"Cache", then build path P+"/Build" |
| ToolProperties.ExistingBuildFolderKept | Source/AtomicTool/AtomicTool.cpp:252-253 | an existing build folder is never created again, and the fifth and last call is the license gate or Run |
| ToolProperties.MissingBuildFolderEffects | Source/AtomicTool/AtomicTool.cpp:234-280 | with the build folder absent and creation succeeding, Start's calls are exactly the load, the two resource directories, the build path, CreateDir of the build folder, then the license initialisation or Run |
| ToolProperties.MissingBuildFolderCreated | Source/AtomicTool/AtomicTool.cpp:253-262 | an absent build folder is created exactly once, then Start goes on to the license gate or Run, and the folder exists afterwards |
| ToolProperties.BuildFolderFailureStopsStart | Source/AtomicTool/AtomicTool.cpp:255-261 | when creation fails, the CreateDir call is followed by an engine exit and "Failed to create build folder: P/Build"; no license call and no Run |
| ToolProperties.CommandRunsAtMostOnce | Source/AtomicTool/AtomicTool.cpp:266-280 | past the short-circuits, Run occurs exactly once on the direct path and never otherwise; the license is initialised exactly on the license-gate path |
| ToolProperties.StartRunsAtMostOnce | Source/AtomicTool/AtomicTool.cpp:209-283 | over the whole of Start, Run occurs once on the direct path and never on the others, and the license is initialised exactly on the license-gate path |
| ToolProperties.ErrorExitReportsAfterExit | Source/AtomicTool/AtomicTool.cpp:290-305 | ErrorExit only reports right after shutting the engine down |
| ToolProperties.StartReportsAfterExit | Source/AtomicTool/AtomicTool.cpp:209-283 | on every path of Start, each report comes right after an engine exit |
| ToolProperties.HandlersRunOnlyOnLicenseSuccess | Source/AtomicTool/AtomicTool.cpp:154-163 | among the handlers, Run is called only by a license success with a selected command, and then exactly once |
| ToolProperties.LicenseRefusalsShareMessage | Source/AtomicTool/AtomicTool.cpp:144-168 | EULA required, activation required and a license error all fail with the same activation text |
| ToolProperties.CommandErrorMessage | Source/AtomicTool/AtomicTool.cpp:133-142 | a command error reports its payload, or "Command Error" when the payload is empty |
| ToolProperties.HandlersExitEngine | Source/AtomicTool/AtomicTool.cpp:128-203 | every handler except a license success with a command exits the engine; the failing handlers exit it first; only they report, always right after the exit |
| ToolProperties.EmptyMessageSilentOffWindows | Source/AtomicTool/AtomicTool.cpp:295-302 | an empty message reports nothing off WIN32; on WIN32 it reports the startup errors or the unexpected-error text |
| ToolProperties.BuildInvocation | Source/AtomicTool/AtomicTool.cpp:209-283 | `build game` with no build folder yet: load, two resource directories, build path, CreateDir, Run, then exit on completion with code 0; the folder exists afterwards |
| ToolProperties.PublishNeedsEula | Source/AtomicTool/AtomicTool.cpp:144-270 | a licensed command only initialises the license; a EULA-required event fails with the activation text and Run is never called |
| ToolProperties.ActivationOnly | Source/AtomicTool/AtomicTool.cpp:176-225 | with an activation key, the selected command is never prepared or run; activation success logs its text and exits with 0 |
| ToolProperties.NoCommandFound | Source/AtomicTool/AtomicTool.cpp:100-112 | no command and no parser message: the tool fails with "No command found" and "ResourcePaths" stays unset |
| ToolProperties.ExactBootstrapTokenCaught | Source/AtomicTool/AtomicTool.cpp:62-95 | a literal `-toolbootstrap` given as the `-loglevel` value is skipped by the loop but still turns bootstrapping on through Setup's first, exact-token check |
| ToolProperties.SwallowedBootstrapFlagMissed | Source/AtomicTool/AtomicTool.cpp:62-95 | a `-TOOLBOOTSTRAP` given as the `-loglevel` value is missed by both checks: bootstrapping stays off |
| ToolProperties.ErrorAfterFinish | Source/AtomicTool/AtomicTool.cpp:128-142 | nothing guards against a second terminal event: a command error after completion still sets EXIT_FAILURE and exits the engine again |

## Left out

- **Event subscription and dispatch.** `SubscribeToEvent`, handler registration and payload lookup are not modelled. `Handle` accepts every event at any time. In particular, the two deactivation handlers are never subscribed in this file, yet `Handle` still dispatches them.
- **Subsystem construction and registration.** `ToolSystem` and `ToolEnvironment` are not modelled. Whether `ToolEnvironment::Initialize` succeeds is a boolean input to `Setup`.
- **The command parser and concrete commands.** These are not part of this model. The parser's answer is an input: an optional command plus its error message. A command is reduced to:
  - whether it requires a project;
  - whether it requires license validation;
  - whether `LoadProject()` succeeds;
  - its project path.
- **The license system's internals.** Its network and cryptographic behaviour and its events' origins are not modelled. Only the calls made to it and the events it emits appear.
- **Output channels.** `Atomic::ErrorExit` and `ATOMIC_LOGRAW` are recorded as `Report` and `LogRaw` effects. The process exit and the output stream are not modelled.
- **The `WIN32` build flag.** It is a constant of the object. The `ATOMIC_DEV_BUILD` branch that sets `ResourcePrefixPaths` and replaces `ResourcePaths` is not modelled, since the model describes a non-development build.
- **Log level conversion.** The log level is kept as the raw token after `-loglevel`. Its integer conversion is not modelled.
- **`activationKey` and `startupErrors`.** These are plain fields. They are set from outside the class, as in the source.
- **The null check on the command at line 273.** It is not modelled. By then the command has already been dereferenced at line 234, so the check can never fire.
- **Start's precondition.** `Start` requires an activation key, the deactivate flag or a selected command. The application framework only calls Start after a Setup that did not fail, and in that case a command exists.
- **The starting engine parameters.** `engineParameters_` and `exitCode_` belong to the `Application` base class, whose constructor is not part of this model. The constructor here starts from an empty parameter map and exit code 0 as a modelling choice. `SetupParameters` is stated for any prior map, so no property depends on that choice.
- **`Stop` and the destructor.** Both are empty and are not modelled.
- **`Start`'s use of arguments.** `Start` reads the arguments but never uses them; the model does not read them there.
