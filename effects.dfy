/**
  Values shared by the whole lifecycle model: the optional value used for the
  selected command and for reported messages, and the record of calls the
  orchestrator makes into its collaborators (engine, resource cache, build
  system, file system, license system, command).
 */
module Effects {

  datatype Option<+T> = None | Some(value: T)

  /** One call made by the orchestrator into a collaborator, in issue order. */
  datatype Effect =
    | EngineExit                      // Engine::Exit()
    | Report(message: string)         // the platform error channel, Atomic::ErrorExit(message, code)
    | LogRaw(text: string)            // ATOMIC_LOGRAW(text)
    | LoadProject(path: string)       // Command::LoadProject() on a command whose project path is `path`
    | AddResourceDir(path: string)    // ResourceCache::AddResourceDir(path)
    | SetBuildPath(path: string)      // BuildSystem::SetBuildPath(path)
    | CreateDir(path: string)         // FileSystem::CreateDir(path)
    | LicenseInitialize               // LicenseSystem::Initialize()
    | LicenseAgreementConfirmed       // LicenseSystem::LicenseAgreementConfirmed()
    | Run                             // Command::Run()

  /** Number of times `e` occurs in the log `s`. */
  function Occurrences(s: seq<Effect>, e: Effect): (n: nat)
    ensures n <= |s|
  {
    if s == [] then 0
    else Occurrences(s[..|s| - 1], e) + (if s[|s| - 1] == e then 1 else 0)
  }

  lemma {:induction false} OccurrencesZero(s: seq<Effect>, e: Effect)
    ensures Occurrences(s, e) == 0 <==> e !in s
    decreases |s|
  {
    if s != [] {
      OccurrencesZero(s[..|s| - 1], e);
      assert s == s[..|s| - 1] + [s[|s| - 1]];
    }
  }

  lemma {:induction false} OccurrencesAppend(a: seq<Effect>, b: seq<Effect>, e: Effect)
    ensures Occurrences(a + b, e) == Occurrences(a, e) + Occurrences(b, e)
    decreases |b|
  {
    if b == [] {
      assert a + b == a;
    } else {
      assert (a + b)[..|a + b| - 1] == a + b[..|b| - 1];
      OccurrencesAppend(a, b[..|b| - 1], e);
    }
  }

  lemma OccurrencesSnoc(a: seq<Effect>, x: Effect, e: Effect)
    ensures Occurrences(a + [x], e) == Occurrences(a, e) + (if x == e then 1 else 0)
  {
    assert (a + [x])[..|a + [x]| - 1] == a;
  }

  /** Every message that reaches the error channel is issued right after the engine was shut down. */
  predicate ReportsFollowExit(s: seq<Effect>)
    decreases |s|
  {
    s == [] ||
    (ReportsFollowExit(s[..|s| - 1]) && (s[|s| - 1].Report? ==> |s| >= 2 && s[|s| - 2] == EngineExit))
  }

  lemma {:induction false} ReportsFollowExitAt(s: seq<Effect>, k: int)
    requires ReportsFollowExit(s) && 0 <= k < |s| && s[k].Report?
    ensures 0 < k && s[k - 1] == EngineExit
    decreases |s|
  {
    if k < |s| - 1 {
      ReportsFollowExitAt(s[..|s| - 1], k);
    }
  }

  lemma {:induction false} ReportsFollowExitAppend(a: seq<Effect>, b: seq<Effect>)
    requires ReportsFollowExit(a) && ReportsFollowExit(b)
    ensures ReportsFollowExit(a + b)
    decreases |b|
  {
    if b == [] {
      assert a + b == a;
    } else {
      var s := a + b;
      var b' := b[..|b| - 1];
      assert s[..|s| - 1] == a + b';
      ReportsFollowExitAppend(a, b');
      assert s[|s| - 1] == b[|b| - 1];
      if b[|b| - 1].Report? {
        assert s[|s| - 2] == b[|b| - 2];
      }
      assert ReportsFollowExit(s[..|s| - 1]);
    }
  }

  /** A log without reports trivially keeps reports after engine exits. */
  lemma {:induction false} NoReportsFollowExit(s: seq<Effect>)
    requires forall k :: 0 <= k < |s| ==> !s[k].Report?
    ensures ReportsFollowExit(s)
    decreases |s|
  {
    if s != [] {
      NoReportsFollowExit(s[..|s| - 1]);
    }
  }
}
