/**
  The scan of the process arguments that AtomicTool::Setup performs for its own
  two flags, `-toolbootstrap` and `-loglevel <value>`, before it hands the whole
  list to the command parser.
 */
module Arguments {

  /** ASCII lower-casing of one character, as C's `tolower` does in the "C" locale. */
  function LowerChar(c: char): (r: char)
    ensures !('A' <= r <= 'Z')
    ensures 'A' <= c <= 'Z' ==> r as int == c as int + 32
    ensures !('A' <= c <= 'Z') ==> r == c
  {
    if 'A' <= c <= 'Z' then (c as int + 32) as char else c
  }

  /** String::ToLower: lower-cases every character and keeps the length. */
  function ToLower(s: string): (r: string)
    ensures |r| == |s|
    ensures forall k :: 0 <= k < |s| ==> r[k] == LowerChar(s[k])
    ensures forall k :: 0 <= k < |r| ==> !('A' <= r[k] <= 'Z')
  {
    if s == [] then [] else [LowerChar(s[0])] + ToLower(s[1..])
  }

  /**
    A token is a flag when it is longer than one character and starts with '-';
    its name is the rest of the token, lower-cased.
   */
  predicate IsFlagNamed(token: string, name: string)
  {
    |token| > 1 && token[0] == '-' && ToLower(token[1..]) == name
  }

  /** The value recorded under the engine parameter "LogLevel". */
  datatype LogLevel =
    | LogInfo                        // the default, LOG_INFO
    | FromToken(token: string)       // Variant(VAR_INT, token): the raw token is kept, its conversion is not modelled

  datatype ScanResult = ScanResult(bootstrap: bool, logLevel: LogLevel)

  const Initial := ScanResult(false, LogInfo)

  /**
    The scan from position `i` on, starting from `acc`. A `-loglevel` flag takes
    the following token as its value (the empty string when there is none) and
    that token is skipped, whatever it looks like.
   */
  function ScanFrom(args: seq<string>, i: nat, acc: ScanResult): ScanResult
    decreases |args| - i
  {
    if i >= |args| then acc
    else if IsFlagNamed(args[i], "toolbootstrap") then
      ScanFrom(args, i + 1, acc.(bootstrap := true))
    else if IsFlagNamed(args[i], "loglevel") then
      ScanFrom(args, i + 2, acc.(logLevel := FromToken(if i + 1 < |args| then args[i + 1] else "")))
    else
      ScanFrom(args, i + 1, acc)
  }

  function Scan(args: seq<string>): ScanResult
  {
    ScanFrom(args, 0, Initial)
  }

  /** The loop of AtomicTool::Setup over the arguments, with its index that a `-loglevel` flag bumps. */
  method ScanArguments(args: seq<string>) returns (r: ScanResult)
    ensures r == Scan(args)
  {
    r := Initial;
    var i := 0;
    while i < |args|
      invariant 0 <= i <= |args| + 1
      invariant ScanFrom(args, i, r) == Scan(args)
      decreases |args| + 1 - i
    {
      if |args[i]| > 1 && args[i][0] == '-' {
        var argument := ToLower(args[i][1..]);
        var value := if i + 1 < |args| then args[i + 1] else "";
        if argument == "toolbootstrap" {
          r := r.(bootstrap := true);
        } else if argument == "loglevel" {
          r := r.(logLevel := FromToken(value));
          i := i + 1;
        }
      }
      i := i + 1;
    }
  }

  /** Position `k` holds the value of a `-loglevel` flag at position `k - 1`. */
  predicate TakesValueAt(args: seq<string>, k: int)
  {
    0 < k < |args| && IsFlagNamed(args[k - 1], "loglevel")
  }

  /** Without a `-loglevel` flag the log level stays what it was (LOG_INFO for Setup). */
  lemma {:induction false} LogLevelKeptWithoutFlag(args: seq<string>, i: nat, acc: ScanResult)
    requires forall k :: i <= k < |args| ==> !IsFlagNamed(args[k], "loglevel")
    ensures ScanFrom(args, i, acc).logLevel == acc.logLevel
    decreases |args| - i
  {
    if i < |args| {
      if IsFlagNamed(args[i], "toolbootstrap") {
        LogLevelKeptWithoutFlag(args, i + 1, acc.(bootstrap := true));
      } else {
        LogLevelKeptWithoutFlag(args, i + 1, acc);
      }
    }
  }

  /**
    A log level set by the scan is the token right after a `-loglevel` flag, or
    the empty string when that flag is the last argument.
   */
  lemma {:induction false} LogLevelComesAfterFlag(args: seq<string>, i: nat, acc: ScanResult)
    ensures var l := ScanFrom(args, i, acc).logLevel;
      l == acc.logLevel
      || (i < |args| && IsFlagNamed(args[|args| - 1], "loglevel") && l == FromToken(""))
      || (exists k :: i < k && TakesValueAt(args, k) && l == FromToken(args[k]))
    decreases |args| - i
  {
    if i < |args| {
      if IsFlagNamed(args[i], "toolbootstrap") {
        LogLevelComesAfterFlag(args, i + 1, acc.(bootstrap := true));
      } else if IsFlagNamed(args[i], "loglevel") {
        var v := if i + 1 < |args| then args[i + 1] else "";
        LogLevelComesAfterFlag(args, i + 2, acc.(logLevel := FromToken(v)));
        if i + 1 < |args| {
          assert TakesValueAt(args, i + 1);
        }
      } else {
        LogLevelComesAfterFlag(args, i + 1, acc);
      }
    }
  }

  /** The scan only turns bootstrapping on when some argument is a `toolbootstrap` flag. */
  lemma {:induction false} BootstrapNeedsFlag(args: seq<string>, i: nat, acc: ScanResult)
    ensures ScanFrom(args, i, acc).bootstrap ==>
      acc.bootstrap || exists k :: i <= k < |args| && IsFlagNamed(args[k], "toolbootstrap")
    decreases |args| - i
  {
    if i < |args| {
      if IsFlagNamed(args[i], "toolbootstrap") {
      } else if IsFlagNamed(args[i], "loglevel") {
        var v := if i + 1 < |args| then args[i + 1] else "";
        BootstrapNeedsFlag(args, i + 2, acc.(logLevel := FromToken(v)));
      } else {
        BootstrapNeedsFlag(args, i + 1, acc);
      }
    }
  }

  /** When no `-loglevel` flag can swallow a token, every `toolbootstrap` flag is seen. */
  lemma {:induction false} BootstrapSeenWithoutLogLevel(args: seq<string>, i: nat, acc: ScanResult)
    requires forall k :: i <= k < |args| ==> !IsFlagNamed(args[k], "loglevel")
    ensures ScanFrom(args, i, acc).bootstrap <==>
      acc.bootstrap || exists k :: i <= k < |args| && IsFlagNamed(args[k], "toolbootstrap")
    decreases |args| - i
  {
    if i < |args| {
      if IsFlagNamed(args[i], "toolbootstrap") {
        BootstrapSeenWithoutLogLevel(args, i + 1, acc.(bootstrap := true));
      } else {
        BootstrapSeenWithoutLogLevel(args, i + 1, acc);
      }
    }
  }

  /** Once the scan has turned bootstrapping on, it stays on. */
  lemma {:induction false} BootstrapStays(args: seq<string>, i: nat, acc: ScanResult)
    requires acc.bootstrap
    ensures ScanFrom(args, i, acc).bootstrap
    decreases |args| - i
  {
    if i < |args| {
      if IsFlagNamed(args[i], "toolbootstrap") {
        BootstrapStays(args, i + 1, acc);
      } else if IsFlagNamed(args[i], "loglevel") {
        BootstrapStays(args, i + 2, acc.(logLevel := FromToken(if i + 1 < |args| then args[i + 1] else "")));
      } else {
        BootstrapStays(args, i + 1, acc);
      }
    }
  }

  /**
    A `toolbootstrap` flag the loop inspects turns bootstrapping on, whatever
    `-loglevel` flags come before or after it.
   */
  lemma {:induction false} BootstrapSeenWhenVisited(args: seq<string>, i: nat, acc: ScanResult, k: nat)
    requires k < |args| && Visits(args, i, k) && IsFlagNamed(args[k], "toolbootstrap")
    ensures ScanFrom(args, i, acc).bootstrap
    decreases |args| - i
  {
    if i == k {
      BootstrapStays(args, k + 1, acc.(bootstrap := true));
    } else if IsFlagNamed(args[i], "toolbootstrap") {
      BootstrapStays(args, i + 1, acc.(bootstrap := true));
    } else if IsFlagNamed(args[i], "loglevel") {
      BootstrapSeenWhenVisited(args, i + 2, acc.(logLevel := FromToken(if i + 1 < |args| then args[i + 1] else "")), k);
    } else {
      BootstrapSeenWhenVisited(args, i + 1, acc, k);
    }
  }

  /** The scan turns bootstrapping on only at a `toolbootstrap` flag it inspects. */
  lemma {:induction false} BootstrapNeedsVisitedFlag(args: seq<string>, i: nat, acc: ScanResult)
    ensures ScanFrom(args, i, acc).bootstrap ==>
      acc.bootstrap || exists k: nat :: k < |args| && Visits(args, i, k) && IsFlagNamed(args[k], "toolbootstrap")
    decreases |args| - i
  {
    if i < |args| {
      if IsFlagNamed(args[i], "toolbootstrap") {
        assert Visits(args, i, i);
      } else if IsFlagNamed(args[i], "loglevel") {
        BootstrapNeedsVisitedFlag(args, i + 2, acc.(logLevel := FromToken(if i + 1 < |args| then args[i + 1] else "")));
      } else {
        BootstrapNeedsVisitedFlag(args, i + 1, acc);
      }
    }
  }

  /** Lower-casing leaves a string without upper-case letters as it is. */
  lemma ToLowerKeepsLower(s: string)
    requires forall k :: 0 <= k < |s| ==> !('A' <= s[k] <= 'Z')
    ensures ToLower(s) == s
  {
  }

  /**
    Whatever token follows `-loglevel`, it is taken as the level and skipped:
    the scan goes on after it, so it is never recognised as a flag itself.
   */
  lemma ValueTokenIsNotAFlag(value: string, rest: seq<string>)
    ensures Scan(["-loglevel", value] + rest)
            == ScanFrom(["-loglevel", value] + rest, 2, ScanResult(false, FromToken(value)))
    ensures Scan(["-loglevel", value]) == ScanResult(false, FromToken(value))
  {
    var flag := "-loglevel";
    ToLowerKeepsLower(flag[1..]);
    assert flag[1..] == "loglevel";
    assert IsFlagNamed(flag, "loglevel") && !IsFlagNamed(flag, "toolbootstrap");
    var args := [flag, value] + rest;
    assert args[0] == flag && args[1] == value;
    var pair := [flag, value];
    assert pair[0] == flag && pair[1] == value;
    assert ScanFrom(pair, 0, Initial) == ScanFrom(pair, 2, ScanResult(false, FromToken(value)));
  }

  /** A `-loglevel` flag anywhere from `i` on makes the scan set a level from a token. */
  lemma {:induction false} FlagSetsLevel(args: seq<string>, i: nat, acc: ScanResult)
    requires exists k :: i <= k < |args| && IsFlagNamed(args[k], "loglevel")
    ensures ScanFrom(args, i, acc).logLevel.FromToken?
    decreases |args| - i
  {
    var k :| i <= k < |args| && IsFlagNamed(args[k], "loglevel");
    if IsFlagNamed(args[i], "toolbootstrap") {
      assert i + 1 <= k;
      FlagSetsLevel(args, i + 1, acc.(bootstrap := true));
    } else if IsFlagNamed(args[i], "loglevel") {
      LogLevelComesAfterFlag(args, i + 2, acc.(logLevel := FromToken(if i + 1 < |args| then args[i + 1] else "")));
    } else {
      assert i + 1 <= k;
      FlagSetsLevel(args, i + 1, acc);
    }
  }

  /**
    The scan from `i` reaches position `k` as a token it inspects, rather than
    skipping it as the value of a `-loglevel` flag.
   */
  predicate Visits(args: seq<string>, i: nat, k: nat)
    decreases |args| - i
  {
    i == k
    || (i < k && i < |args| && Visits(args, if IsFlagNamed(args[i], "loglevel") then i + 2 else i + 1, k))
  }

  /** Every position up to the first `-loglevel` flag is inspected. */
  lemma {:induction false} VisitsBeforeFirstLevelFlag(args: seq<string>, i: nat, k: nat)
    requires i <= k <= |args|
    requires forall j :: i <= j < k ==> !IsFlagNamed(args[j], "loglevel")
    ensures Visits(args, i, k)
    decreases k - i
  {
    if i < k {
      VisitsBeforeFirstLevelFlag(args, i + 1, k);
    }
  }

  /**
    The last inspected `-loglevel` flag decides the level: its value token, or
    the empty string when it is the last argument.
   */
  lemma {:induction false} LastFlagWins(args: seq<string>, i: nat, acc: ScanResult, k: nat)
    requires k < |args| && Visits(args, i, k) && IsFlagNamed(args[k], "loglevel")
    requires forall j :: k + 2 <= j < |args| ==> !IsFlagNamed(args[j], "loglevel")
    ensures ScanFrom(args, i, acc).logLevel == FromToken(if k + 1 < |args| then args[k + 1] else "")
    decreases |args| - i
  {
    if i == k {
      assert !IsFlagNamed(args[k], "toolbootstrap");
      LogLevelKeptWithoutFlag(args, k + 2, acc.(logLevel := FromToken(if k + 1 < |args| then args[k + 1] else "")));
    } else if IsFlagNamed(args[i], "toolbootstrap") {
      LastFlagWins(args, i + 1, acc.(bootstrap := true), k);
    } else if IsFlagNamed(args[i], "loglevel") {
      LastFlagWins(args, i + 2, acc.(logLevel := FromToken(if i + 1 < |args| then args[i + 1] else "")), k);
    } else {
      LastFlagWins(args, i + 1, acc, k);
    }
  }

  /** Flag names are compared case-insensitively: a trailing `-LogLevel` sets an empty level. */
  lemma FlagNameIgnoresCase()
    ensures Scan(["-LogLevel"]) == ScanResult(false, FromToken(""))
  {
    var args := ["-LogLevel"];
    var name := ToLower(args[0][1..]);
    assert args[0][1..] == "LogLevel";
    assert name[0] == 'l' && name[3] == 'l';
    assert name == "loglevel";
    assert IsFlagNamed(args[0], "loglevel");
    assert !IsFlagNamed(args[0], "toolbootstrap");
    assert ScanFrom(args, 0, Initial) == ScanFrom(args, 2, ScanResult(false, FromToken("")));
  }
}
