/**
  The fixed texts of the tool and AtomicTool::ErrorExit, the single failure
  path: the engine is shut down, the exit code becomes EXIT_FAILURE and the
  message, or a fallback, goes to the platform error channel.
 */
module ExitController {
  import opened Effects

  const EXIT_SUCCESS: int := 0
  const EXIT_FAILURE: int := 1

  const EnvironmentFailureText := "Unable to initialize tool environment"
  const NoCommandText := "No command found"
  const CommandErrorText := "Command Error"
  const ActivationRequiredText := "\nActivation Required: Please run: atomic-cli activate\n"
  const ActivationSuccessText := "\nActivation successful, thank you!\n\n"
  const DeactivationSuccessText := "\nDeactivation successful\n\n"
  const UnexpectedErrorText := "Application has been terminated due to unexpected error."
  const LoadFailurePrefix := "Failed to load project: "
  const BuildFolderFailurePrefix := "Failed to create build folder: "

  /**
    The message of a failure: the one a collaborator supplied when it is not
    empty, the tool's own fallback text otherwise (the parse failure in Setup,
    the command error event).
   */
  function MessageOr(message: string, fallback: string): (r: string)
    ensures message != [] ==> r == message
    ensures message == [] ==> r == fallback
    ensures fallback != [] ==> r != []
  {
    if |message| > 0 then message else fallback
  }

  /**
    What ErrorExit hands to the error channel. A non-empty message is reported
    verbatim; an empty one is replaced by the startup errors or the generic
    text, and only on WIN32, so on other platforms nothing is reported.
   */
  function ReportedMessage(message: string, startupErrors: string, win32: bool): (r: Option<string>)
    ensures r.Some? ==> r.value != []
    ensures r.None? <==> message == [] && !win32
    ensures message != [] ==> r == Some(message)
    ensures r.Some? && message == [] ==> r.value == MessageOr(startupErrors, UnexpectedErrorText)
  {
    if message != [] then Some(message)
    else if win32 then Some(if |startupErrors| > 0 then startupErrors else UnexpectedErrorText)
    else None
  }

  /** The calls ErrorExit makes: the engine is always shut down first, then at most one report. */
  function ErrorExitEffects(message: string, startupErrors: string, win32: bool): (r: seq<Effect>)
    ensures 1 <= |r| <= 2 && r[0] == EngineExit
    ensures message != [] ==> r == [EngineExit, Report(message)]
    ensures |r| == 2 <==> ReportedMessage(message, startupErrors, win32).Some?
    ensures Run !in r && LicenseInitialize !in r
  {
    match ReportedMessage(message, startupErrors, win32)
    case Some(m) => [EngineExit, Report(m)]
    case None => [EngineExit]
  }
}
