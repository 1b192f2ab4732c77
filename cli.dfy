/**
 * The command line (bin/cli.js): flag lookup over the argument list, the `||`
 * defaults, and the decision between printing the help, refusing the call,
 * reporting a missing input file and running the generator.
 *
 * The file system is reduced to the set of paths that exist; the help and
 * error texts printed on the console are reduced to the outcome tags.
 */
module Cli {
  import opened Wrappers
  import opened Strings
  import Generator

  // ---------------------------------------------------------------------------
  // getArg
  // ---------------------------------------------------------------------------

  /**
   * The element after index `i` can serve as a flag's value: it exists, is
   * non-empty (a truthy string) and does not start with `-`.
   */
  predicate Acceptable(argv: seq<string>, i: int) {
    0 <= i + 1 < |argv| && argv[i + 1] != "" && !StartsWith(argv[i + 1], "-")
  }

  /** One `indexOf` lookup of getArg: the element after the first `flag`, when acceptable. */
  function ValueAfter(argv: seq<string>, flag: string): (r: Option<string>)
    ensures r.Some? ==> r.value in argv && r.value != "" && !StartsWith(r.value, "-")
  {
    var idx := IndexOf(argv, flag);
    if idx != -1 && Acceptable(argv, idx) then Some(argv[idx + 1]) else None
  }

  /**
   * getArg(argv, name, short): the long flag first; the short one only when
   * it is given (truthy) and the long lookup found nothing. `None` stands for
   * `undefined`.
   */
  function GetArg(argv: seq<string>, name: string, short: Option<string>): (r: Option<string>)
    ensures r.Some? ==> r.value in argv && r.value != "" && !StartsWith(r.value, "-")
    ensures r.Some? ==> r == ValueAfter(argv, name) || (Truthy(short) && r == ValueAfter(argv, short.value))
  {
    var long := ValueAfter(argv, name);
    if long.Some? then long
    else if Truthy(short) then ValueAfter(argv, short.value)
    else None
  }

  /** `i` is the first position of `flag` in `argv`. */
  predicate FirstAt(argv: seq<string>, flag: string, i: int) {
    0 <= i < |argv| && argv[i] == flag && forall j :: 0 <= j < i ==> argv[j] != flag
  }

  lemma FirstAtUnique(argv: seq<string>, flag: string, i: int, k: int)
    requires FirstAt(argv, flag, i) && FirstAt(argv, flag, k)
    ensures i == k
  {
  }

  /** `indexOf` finds exactly the first position. */
  lemma IndexOfFirst(argv: seq<string>, flag: string)
    ensures flag in argv ==> FirstAt(argv, flag, IndexOf(argv, flag))
    ensures flag !in argv <==> IndexOf(argv, flag) == -1
  {
    var r := IndexOf(argv, flag);
    if r >= 0 {
      forall j | 0 <= j < r ensures argv[j] != flag {
        assert argv[j] == argv[..r][j];
      }
    }
  }

  /**
   * A lookup yields `v` exactly when `v` follows the first occurrence of the
   * flag and is acceptable there; it yields nothing when the flag is absent.
   */
  lemma ValueAfterSpec(argv: seq<string>, flag: string, i: int)
    requires FirstAt(argv, flag, i)
    ensures ValueAfter(argv, flag) == if Acceptable(argv, i) then Some(argv[i + 1]) else None
  {
    IndexOfFirst(argv, flag);
    FirstAtUnique(argv, flag, i, IndexOf(argv, flag));
  }

  lemma ValueAfterAbsent(argv: seq<string>, flag: string)
    requires flag !in argv
    ensures ValueAfter(argv, flag) == None
  {
    IndexOfFirst(argv, flag);
  }

  /** Both directions: a value is found for `flag` if and only if the element after its first occurrence is acceptable. */
  lemma ValueAfterIff(argv: seq<string>, flag: string)
    ensures ValueAfter(argv, flag).Some? <==> exists i :: FirstAt(argv, flag, i) && Acceptable(argv, i)
  {
    IndexOfFirst(argv, flag);
    if flag in argv {
      var k := IndexOf(argv, flag);
      forall i | FirstAt(argv, flag, i) ensures i == k {
        FirstAtUnique(argv, flag, i, k);
      }
    }
  }

  /** A flag that is the last argument has no value. */
  lemma FlagAtEnd(argv: seq<string>, flag: string)
    requires argv != [] && argv[|argv| - 1] == flag && flag !in argv[..|argv| - 1]
    ensures ValueAfter(argv, flag) == None
  {
    var i := |argv| - 1;
    forall j | 0 <= j < i ensures argv[j] != flag {
      assert argv[j] == argv[..i][j];
    }
    ValueAfterSpec(argv, flag, i);
  }

  /** A flag followed by a dash-prefixed argument has no value. */
  lemma FlagBeforeDash(argv: seq<string>, flag: string, i: int)
    requires FirstAt(argv, flag, i) && i + 1 < |argv| && StartsWith(argv[i + 1], "-")
    ensures ValueAfter(argv, flag) == None
  {
    ValueAfterSpec(argv, flag, i);
  }

  /**
   * Only the first occurrence counts: when it is followed by a dash-prefixed
   * argument, a later well-formed `flag value` pair is ignored.
   */
  lemma OnlyFirstOccurrence(pre: seq<string>, flag: string, dashed: string, post: seq<string>)
    requires flag !in pre && StartsWith(dashed, "-")
    ensures ValueAfter(pre + [flag, dashed] + post, flag) == None
  {
    var argv := pre + [flag, dashed] + post;
    forall j | 0 <= j < |pre| ensures argv[j] != flag {
      assert argv[j] == pre[j];
    }
    FlagBeforeDash(argv, flag, |pre|);
  }

  /** An instance: `--name -x --name Site` leaves the name undefined. */
  lemma OnlyFirstOccurrenceExample()
    ensures ValueAfter(["--name", "-x", "--name", "Site"], "--name") == None
  {
    OnlyFirstOccurrence([], "--name", "-x", ["--name", "Site"]);
  }

  /** A valid long flag wins, whatever the short flag says. */
  lemma LongFlagWins(argv: seq<string>, name: string, short: Option<string>, i: int)
    requires FirstAt(argv, name, i) && Acceptable(argv, i)
    ensures GetArg(argv, name, short) == Some(argv[i + 1])
  {
    ValueAfterSpec(argv, name, i);
  }

  /** The short flag decides only when the long lookup fails; without a short flag only the long one is looked at. */
  lemma ShortFlagFallback(argv: seq<string>, name: string, short: Option<string>)
    ensures ValueAfter(argv, name).None? && Truthy(short) ==> GetArg(argv, name, short) == ValueAfter(argv, short.value)
    ensures !Truthy(short) ==> GetArg(argv, name, short) == ValueAfter(argv, name)
    ensures ValueAfter(argv, name).Some? ==> GetArg(argv, name, short) == ValueAfter(argv, name)
  {
  }

  // ---------------------------------------------------------------------------
  // The top-level decision
  // ---------------------------------------------------------------------------

  /** What one run of the command does. */
  datatype Outcome =
    | Help                                  // help printed, exit 0
    | UsageError                            // "--input est requis" and the help, exit 1
    | NotFound(inputPath: string)           // "fichier introuvable", exit 1
    | Generate(params: Generator.AssetParams) // generateAssets called with these parameters

  const DEFAULT_OUTPUT_DIR := "./dist"

  /** Whether the help flag is anywhere on the command line. */
  predicate WantsHelp(argv: seq<string>) {
    "--help" in argv || "-h" in argv
  }

  /**
   * The parameters handed to generateAssets once `inputPath` is known: the
   * remaining lookups with the command line's own `||` defaults, which are the
   * same texts the generator falls back on.
   */
  function CliParams(argv: seq<string>, inputPath: string): (r: Generator.AssetParams)
    ensures r.inputPath == inputPath
    ensures Truthy(Some(r.outputDir)) && Truthy(r.appName) && Truthy(r.shortName)
    ensures Truthy(r.themeColor) && Truthy(r.backgroundColor)
  {
    Generator.AssetParams(
      inputPath,
      Or(GetArg(argv, "--output", Some("-o")), DEFAULT_OUTPUT_DIR),
      Some(Or(GetArg(argv, "--name", None), Generator.DEFAULT_APP_NAME)),
      Some(Or(GetArg(argv, "--short-name", None), Generator.DEFAULT_SHORT_NAME)),
      Some(Or(GetArg(argv, "--theme-color", None), Generator.DEFAULT_COLOR)),
      Some(Or(GetArg(argv, "--background-color", None), Generator.DEFAULT_COLOR)))
  }

  /**
   * The top-level block of bin/cli.js, `argv` being the arguments after the
   * program name and `existing` the paths `fs.existsSync` accepts.
   */
  function Decide(argv: seq<string>, existing: set<string>): Outcome {
    if WantsHelp(argv) then Help
    else
      var inputPath := GetArg(argv, "--input", Some("-i"));
      if !Truthy(inputPath) then UsageError
      else if inputPath.value !in existing then NotFound(inputPath.value)
      else Generate(CliParams(argv, inputPath.value))
  }

  /** The process exit status; a failure inside generateAssets (exit 1) is not modelled. */
  function ExitCode(o: Outcome): (r: nat)
    ensures r == 0 <==> o.Help? || o.Generate?
    ensures r <= 1
  {
    match o
    case Help => 0
    case UsageError => 1
    case NotFound(_) => 1
    case Generate(_) => 0
  }

  /** Help wins over everything, a missing `--input` among them. */
  lemma HelpFirst(argv: seq<string>, existing: set<string>)
    ensures Decide(argv, existing) == Help <==> WantsHelp(argv)
    ensures WantsHelp(argv) ==> ExitCode(Decide(argv, existing)) == 0
  {
  }

  /** A missing input is a usage error, reported before any file is looked at. */
  lemma MissingInput(argv: seq<string>, existing: set<string>)
    ensures Decide(argv, existing) == UsageError
      <==> !WantsHelp(argv) && GetArg(argv, "--input", Some("-i")) == None
  {
  }

  /** A named input that does not exist is reported, and nothing is generated. */
  lemma InputNotFound(argv: seq<string>, existing: set<string>, path: string)
    ensures Decide(argv, existing) == NotFound(path)
      <==> !WantsHelp(argv) && GetArg(argv, "--input", Some("-i")) == Some(path) && path !in existing
  {
  }

  /**
   * Generation happens exactly for an existing input and no help flag; the
   * parameters carry the looked-up values or the defaults, so the generator's
   * own defaulting changes nothing.
   */
  lemma GenerateWith(argv: seq<string>, existing: set<string>, params: Generator.AssetParams)
    requires Decide(argv, existing) == Generate(params)
    ensures !WantsHelp(argv) && params.inputPath in existing
    ensures GetArg(argv, "--input", Some("-i")) == Some(params.inputPath)
    ensures params.outputDir == Or(GetArg(argv, "--output", Some("-o")), DEFAULT_OUTPUT_DIR)
    ensures Generator.ResolveDefaults(params) == Generator.Settings(
      Or(GetArg(argv, "--name", None), Generator.DEFAULT_APP_NAME),
      Or(GetArg(argv, "--short-name", None), Generator.DEFAULT_SHORT_NAME),
      Or(GetArg(argv, "--theme-color", None), Generator.DEFAULT_COLOR),
      Or(GetArg(argv, "--background-color", None), Generator.DEFAULT_COLOR))
  {
    var p := CliParams(argv, params.inputPath);
    Generator.DefaultsKeepGivenValues(p);
  }

  /** With none of the optional flags on the command line, every optional value takes its default. */
  lemma DefaultsWhenAbsent(argv: seq<string>, existing: set<string>)
    requires !WantsHelp(argv)
    requires GetArg(argv, "--input", Some("-i")).Some? && GetArg(argv, "--input", Some("-i")).value in existing
    requires "--output" !in argv && "-o" !in argv && "--name" !in argv && "--short-name" !in argv
    requires "--theme-color" !in argv && "--background-color" !in argv
    ensures Decide(argv, existing) == Generate(Generator.AssetParams(
      GetArg(argv, "--input", Some("-i")).value, DEFAULT_OUTPUT_DIR,
      Some(Generator.DEFAULT_APP_NAME), Some(Generator.DEFAULT_SHORT_NAME),
      Some(Generator.DEFAULT_COLOR), Some(Generator.DEFAULT_COLOR)))
  {
    ValueAfterAbsent(argv, "--output");
    ValueAfterAbsent(argv, "-o");
    ValueAfterAbsent(argv, "--name");
    ValueAfterAbsent(argv, "--short-name");
    ValueAfterAbsent(argv, "--theme-color");
    ValueAfterAbsent(argv, "--background-color");
  }

  /** `--input logo.png` alone, on an existing file. */
  lemma DefaultsExample()
    ensures Decide(["--input", "logo.png"], {"logo.png"})
      == Generate(Generator.AssetParams("logo.png", "./dist", Some("Website"), Some("App"), Some("#ffffff"), Some("#ffffff")))
  {
    var argv := ["--input", "logo.png"];
    assert GetArg(argv, "--input", Some("-i")) == Some("logo.png") by {
      assert argv[1][..1] != "-" by { assert argv[1][..1][0] == 'l'; }
      ValueAfterSpec(argv, "--input", 0);
    }
    DefaultsWhenAbsent(argv, {"logo.png"});
  }
}
