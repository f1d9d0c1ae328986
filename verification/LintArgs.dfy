/** The argument normaliser of the argument-comment-lint wrapper: `parse_wrapper_args` classifies a
    command line, `build_final_args` fills in the defaults the user left out.

    `NormalizingIsIdempotent` says exactly when normalising a normalised command line changes nothing. */
module LintArgs {
  type Args = seq<string>

  datatype Awaited = Nothing | ManifestPath | PackageSelection | LibrarySelection

  /** What the lint half of a command line has been seen to select. */
  datatype Flags = Flags(manifestPath: bool, packageSelection: bool, noDeps: bool, librarySelection: bool, fix: bool)

  const NoFlags := Flags(false, false, false, false, false)

  datatype Parsed = Parsed(lintArgs: Args, cargoArgs: Args, flags: Flags, cargoTargetSelection: bool)

  const SEPARATOR := "--"

  predicate StartsWith(s: string, prefix: string) {
    prefix <= s
  }

  predicate SelectsTarget(arg: string) {
    || arg in {"--all-targets", "--lib", "--bins", "--tests", "--examples", "--benches", "--doc"}
    || arg in {"--bin", "--test", "--example", "--bench"}
    || StartsWith(arg, "--bin=") || StartsWith(arg, "--test=")
    || StartsWith(arg, "--example=") || StartsWith(arg, "--bench=")
  }

  /** What one argument selects when it is not the value of the argument before it. */
  function Selected(arg: string): Flags {
    if arg == "--manifest-path" then NoFlags
    else if StartsWith(arg, "--manifest-path=") then NoFlags.(manifestPath := true)
    else if arg == "-p" || arg == "--package" then NoFlags
    else if StartsWith(arg, "--package=") then NoFlags.(packageSelection := true)
    else if arg == "--fix" then NoFlags.(fix := true)
    else if arg == "--workspace" then NoFlags.(packageSelection := true)
    else if arg == "--no-deps" then NoFlags.(noDeps := true)
    else if arg == "--lib" || arg == "--lib-path" then NoFlags
    else if StartsWith(arg, "--lib=") || StartsWith(arg, "--lib-path=") then NoFlags.(librarySelection := true)
    else NoFlags
  }

  function Expected(arg: string): Awaited {
    if arg == "--manifest-path" then ManifestPath
    else if StartsWith(arg, "--manifest-path=") then Nothing
    else if arg == "-p" || arg == "--package" then PackageSelection
    else if StartsWith(arg, "--package=") || arg in {"--fix", "--workspace", "--no-deps"} then Nothing
    else if arg == "--lib" || arg == "--lib-path" then LibrarySelection
    else Nothing
  }

  /** What the value of a preceding argument selects. */
  function SelectedByValue(awaiting: Awaited): Flags {
    match awaiting
    case Nothing => NoFlags
    case ManifestPath => NoFlags.(manifestPath := true)
    case PackageSelection => NoFlags.(packageSelection := true)
    case LibrarySelection => NoFlags.(librarySelection := true)
  }

  function Or(a: Flags, b: Flags): Flags {
    Flags(a.manifestPath || b.manifestPath, a.packageSelection || b.packageSelection, a.noDeps || b.noDeps,
          a.librarySelection || b.librarySelection, a.fix || b.fix)
  }

  /** The selections of a lint half, and what its last argument still expects. */
  function LintFlags(args: Args, awaiting: Awaited): Flags {
    if args == [] then NoFlags
    else if awaiting != Nothing then Or(SelectedByValue(awaiting), LintFlags(args[1..], Nothing))
    else Or(Selected(args[0]), LintFlags(args[1..], Expected(args[0])))
  }

  function LintExpects(args: Args, awaiting: Awaited): Awaited {
    if args == [] then awaiting
    else LintExpects(args[1..], if awaiting != Nothing then Nothing else Expected(args[0]))
  }

  predicate AnyTarget(args: Args) {
    exists i :: 0 <= i < |args| && SelectsTarget(args[i])
  }

  /** The number of arguments before the separator. */
  function LintLength(argv: Args): (n: nat)
    ensures n <= |argv|
    ensures forall i | 0 <= i < n :: argv[i] != SEPARATOR
    ensures n < |argv| ==> argv[n] == SEPARATOR
  {
    if argv == [] || argv[0] == SEPARATOR then 0 else 1 + LintLength(argv[1..])
  }

  /** What a command line means: everything before the first separator is for the lint, everything after
      it is for cargo. */
  function Meaning(argv: Args): Parsed {
    var n := LintLength(argv);
    var cargo := if n == |argv| then [] else argv[n + 1..];
    Parsed(argv[..n], cargo, LintFlags(argv[..n], Nothing), AnyTarget(cargo))
  }

  lemma LintFlagsAppend(a: Args, b: Args, awaiting: Awaited)
    ensures LintFlags(a + b, awaiting) == Or(LintFlags(a, awaiting), LintFlags(b, LintExpects(a, awaiting)))
    ensures LintExpects(a + b, awaiting) == LintExpects(b, LintExpects(a, awaiting))
    decreases |a|
  {
    if a == [] {
      assert a + b == b;
    } else {
      assert (a + b)[1..] == a[1..] + b;
      LintFlagsAppend(a[1..], b, if awaiting != Nothing then Nothing else Expected(a[0]));
    }
  }

  lemma LintFlagsOne(arg: string, awaiting: Awaited)
    ensures LintFlags([arg], awaiting) == if awaiting != Nothing then SelectedByValue(awaiting) else Selected(arg)
    ensures LintExpects([arg], awaiting) == if awaiting != Nothing then Nothing else Expected(arg)
  {
    assert [arg][1..] == [];
  }

  lemma AnyTargetAppend(before: Args, arg: string)
    ensures AnyTarget(before + [arg]) == (AnyTarget(before) || SelectsTarget(arg))
  {
    var after := before + [arg];
    assert after[|before|] == arg;
    assert forall k | 0 <= k < |before| :: after[k] == before[k];
  }

  /** The classification of one lint argument inside the parse loop. */
  method Classify(arg: string, before: Flags, awaited: Awaited) returns (flags: Flags, awaiting: Awaited)
    ensures flags == Or(before, LintFlags([arg], awaited))
    ensures awaiting == LintExpects([arg], awaited)
  {
    LintFlagsOne(arg, awaited);
    flags, awaiting := before, awaited;
    if awaiting != Nothing {
      match awaiting {
        case ManifestPath => flags := flags.(manifestPath := true);
        case PackageSelection => flags := flags.(packageSelection := true);
        case LibrarySelection => flags := flags.(librarySelection := true);
      }
      awaiting := Nothing;
      return;
    }
    if arg == "--manifest-path" {
      awaiting := ManifestPath;
    } else if StartsWith(arg, "--manifest-path=") {
      flags := flags.(manifestPath := true);
    } else if arg == "-p" || arg == "--package" {
      awaiting := PackageSelection;
    } else if StartsWith(arg, "--package=") {
      flags := flags.(packageSelection := true);
    } else if arg == "--fix" {
      flags := flags.(fix := true);
    } else if arg == "--workspace" {
      flags := flags.(packageSelection := true);
    } else if arg == "--no-deps" {
      flags := flags.(noDeps := true);
    } else if arg == "--lib" || arg == "--lib-path" {
      awaiting := LibrarySelection;
    } else if StartsWith(arg, "--lib=") || StartsWith(arg, "--lib-path=") {
      flags := flags.(librarySelection := true);
    }
  }

  /** The parse loop, proved against the meaning of the command line. */
  method ParseWrapperArgs(argv: Args) returns (parsed: Parsed)
    ensures parsed == Meaning(argv)
  {
    var lintArgs: Args, cargoArgs: Args := [], [];
    var flags := NoFlags;
    var target, afterSeparator := false, false;
    var awaiting := Nothing;
    ghost var n := LintLength(argv);
    for i := 0 to |argv|
      invariant afterSeparator == (n < i)
      invariant !afterSeparator ==> lintArgs == argv[..i] && cargoArgs == []
      invariant afterSeparator ==> lintArgs == argv[..n] && cargoArgs == argv[n + 1..i]
      invariant flags == LintFlags(lintArgs, Nothing)
      invariant !afterSeparator ==> awaiting == LintExpects(lintArgs, Nothing)
      invariant target == AnyTarget(cargoArgs)
    {
      var arg := argv[i];
      if afterSeparator {
        AnyTargetAppend(cargoArgs, arg);
        cargoArgs := cargoArgs + [arg];
        if SelectsTarget(arg) {
          target := true;
        }
        continue;
      }
      if arg == SEPARATOR {
        afterSeparator := true;
        continue;
      }
      LintFlagsAppend(lintArgs, [arg], Nothing);
      lintArgs := lintArgs + [arg];
      flags, awaiting := Classify(arg, flags, awaiting);
    }
    assert argv[..|argv|] == argv;
    parsed := Parsed(lintArgs, cargoArgs, flags, target);
  }

  // ---------------------------------------------------------------- what the flags mean

  /** How an option can be written: with its value as the next argument, alone, or with the value after a prefix. */
  datatype Spelling = Spelling(takingValue: set<string>, alone: set<string>, prefixes: set<string>)

  const MANIFEST_PATH := Spelling({"--manifest-path"}, {}, {"--manifest-path="})
  const PACKAGE := Spelling({"-p", "--package"}, {"--workspace"}, {"--package="})
  const NO_DEPS := Spelling({}, {"--no-deps"}, {})
  const LIBRARY := Spelling({"--lib", "--lib-path"}, {}, {"--lib=", "--lib-path="})
  const FIX := Spelling({}, {"--fix"}, {})

  predicate TakesValue(arg: string) {
    arg in MANIFEST_PATH.takingValue + PACKAGE.takingValue + LIBRARY.takingValue
  }

  /** An argument is a value when the one before it is an option that takes one, and not itself a value. */
  predicate IsValue(args: Args, i: nat)
    requires i < |args|
  {
    i > 0 && TakesValue(args[i - 1]) && !IsValue(args, i - 1)
  }

  predicate Prefixed(arg: string, option: Spelling) {
    exists prefix <- option.prefixes :: StartsWith(arg, prefix)
  }

  predicate Gives(args: Args, i: nat, option: Spelling)
    requires i < |args|
  {
    if IsValue(args, i) then args[i - 1] in option.takingValue
    else args[i] in option.alone || Prefixed(args[i], option)
  }

  predicate Given(args: Args, n: nat, option: Spelling)
    requires n <= |args|
  {
    exists i | 0 <= i < n :: Gives(args, i, option)
  }

  /** The flags of the options given among the first n arguments. */
  function GivenFlags(args: Args, n: nat): Flags
    requires n <= |args|
  {
    Flags(Given(args, n, MANIFEST_PATH), Given(args, n, PACKAGE), Given(args, n, NO_DEPS), Given(args, n, LIBRARY),
          Given(args, n, FIX))
  }

  /** The options of different flags differ in their third letter. */
  lemma ThirdLetters(arg: string)
    ensures arg in MANIFEST_PATH.takingValue || StartsWith(arg, "--manifest-path=") ==> |arg| > 2 && arg[2] == 'm'
    ensures arg == "--package" || StartsWith(arg, "--package=") ==> |arg| > 2 && arg[2] == 'p'
    ensures arg in LIBRARY.takingValue || StartsWith(arg, "--lib=") || StartsWith(arg, "--lib-path=")
        ==> |arg| > 2 && arg[2] == 'l'
    ensures arg == "--workspace" ==> |arg| > 2 && arg[2] == 'w'
    ensures arg == "--no-deps" ==> |arg| > 2 && arg[2] == 'n'
    ensures arg == "--fix" ==> |arg| > 2 && arg[2] == 'f'
  {
    assert "--manifest-path="[2] == 'm' && "--package="[2] == 'p' && "--lib="[2] == 'l' && "--lib-path="[2] == 'l';
  }

  lemma PrefixedIff(arg: string)
    ensures Prefixed(arg, MANIFEST_PATH) <==> StartsWith(arg, "--manifest-path=")
    ensures Prefixed(arg, PACKAGE) <==> StartsWith(arg, "--package=")
    ensures Prefixed(arg, LIBRARY) <==> StartsWith(arg, "--lib=") || StartsWith(arg, "--lib-path=")
    ensures !Prefixed(arg, NO_DEPS) && !Prefixed(arg, FIX)
  {
    assert "--manifest-path=" in MANIFEST_PATH.prefixes && "--package=" in PACKAGE.prefixes;
    assert "--lib=" in LIBRARY.prefixes && "--lib-path=" in LIBRARY.prefixes;
  }

  lemma OptionsAreNotPrefixed(arg: string)
    requires TakesValue(arg)
    ensures !Prefixed(arg, MANIFEST_PATH) && !Prefixed(arg, PACKAGE) && !Prefixed(arg, LIBRARY)
  {
    PrefixedIff(arg);
    ThirdLetters(arg);
    assert "--lib="[5] == '=' && "--lib-path"[5] == '-';
  }

  lemma ExpectedIsTaken(arg: string)
    ensures Expected(arg) == ManifestPath <==> arg in MANIFEST_PATH.takingValue
    ensures Expected(arg) == PackageSelection <==> arg in PACKAGE.takingValue
    ensures Expected(arg) == LibrarySelection <==> arg in LIBRARY.takingValue
  {
    ThirdLetters(arg);
  }

  function GivenAt(args: Args, i: nat): Flags
    requires i < |args|
  {
    Flags(Gives(args, i, MANIFEST_PATH), Gives(args, i, PACKAGE), Gives(args, i, NO_DEPS), Gives(args, i, LIBRARY),
          Gives(args, i, FIX))
  }

  lemma ValueGives(args: Args, i: nat)
    requires i < |args| && IsValue(args, i)
    ensures GivenAt(args, i) == SelectedByValue(Expected(args[i - 1]))
  {
    ExpectedIsTaken(args[i - 1]);
  }

  lemma OptionGives(args: Args, i: nat)
    requires i < |args| && !IsValue(args, i)
    ensures GivenAt(args, i) == Selected(args[i])
  {
    ThirdLetters(args[i]);
    PrefixedIff(args[i]);
    if TakesValue(args[i]) {
      OptionsAreNotPrefixed(args[i]);
    }
  }

  /** What is still expected after the first n arguments. */
  function AwaitedAfter(args: Args, n: nat): Awaited
    requires n <= |args|
  {
    if n == 0 || IsValue(args, n - 1) then Nothing else Expected(args[n - 1])
  }

  lemma AwaitedIff(args: Args, i: nat)
    requires i < |args|
    ensures AwaitedAfter(args, i) != Nothing <==> IsValue(args, i)
  {
    if i > 0 {
      ExpectedIsTaken(args[i - 1]);
    }
  }

  lemma OneGives(args: Args, i: nat)
    requires i < |args|
    ensures LintFlags([args[i]], AwaitedAfter(args, i)) == GivenAt(args, i)
    ensures LintExpects([args[i]], AwaitedAfter(args, i)) == AwaitedAfter(args, i + 1)
  {
    LintFlagsOne(args[i], AwaitedAfter(args, i));
    AwaitedIff(args, i);
    if IsValue(args, i) {
      ValueGives(args, i);
    } else {
      OptionGives(args, i);
    }
  }

  lemma GivenOneMore(args: Args, n: nat)
    requires n < |args|
    ensures GivenFlags(args, n + 1) == Or(GivenFlags(args, n), GivenAt(args, n))
  {
  }

  lemma {:induction false} GivenUpTo(args: Args, n: nat)
    requires n <= |args|
    ensures LintExpects(args[..n], Nothing) == AwaitedAfter(args, n)
    ensures LintFlags(args[..n], Nothing) == GivenFlags(args, n)
    decreases n
  {
    if n > 0 {
      GivenUpTo(args, n - 1);
      assert args[..n] == args[..n - 1] + [args[n - 1]];
      LintFlagsAppend(args[..n - 1], [args[n - 1]], Nothing);
      OneGives(args, n - 1);
      GivenOneMore(args, n - 1);
    }
  }

  const TARGET_KINDS := {"bin", "test", "example", "bench"}

  function Plural(kind: string): string {
    if kind == "bench" then "benches" else kind + "s"
  }

  predicate NamesTarget(arg: string) {
    || arg in {"--all-targets", "--lib", "--doc"}
    || exists kind <- TARGET_KINDS ::
         arg == "--" + kind || arg == "--" + Plural(kind) || StartsWith(arg, "--" + kind + "=")
  }

  lemma TargetNames(arg: string)
    ensures SelectsTarget(arg) <==> NamesTarget(arg)
  {
    assert "--" + "bin" == "--bin" && "--" + "test" == "--test";
    assert "--" + "example" == "--example" && "--" + "bench" == "--bench";
    assert "--" + Plural("bin") == "--bins" && "--" + Plural("test") == "--tests";
    assert "--" + Plural("example") == "--examples" && "--" + Plural("bench") == "--benches";
    assert "--" + "bin" + "=" == "--bin=" && "--" + "test" + "=" == "--test=";
    assert "--" + "example" + "=" == "--example=" && "--" + "bench" + "=" == "--bench=";
    assert "bin" in TARGET_KINDS && "test" in TARGET_KINDS && "example" in TARGET_KINDS && "bench" in TARGET_KINDS;
  }

  /** Each flag of a parsed command line is set exactly when its option is given before the separator in one of
      its spellings, the value of an option never being taken for one, and the target flag exactly when an
      argument behind the separator names a target kind. */
  lemma FlagsAreGiven(argv: Args)
    ensures var p := Meaning(argv);
            && p.flags == GivenFlags(p.lintArgs, |p.lintArgs|)
            && (p.cargoTargetSelection <==> exists arg <- p.cargoArgs :: NamesTarget(arg))
  {
    var p := Meaning(argv);
    GivenUpTo(p.lintArgs, |p.lintArgs|);
    assert p.lintArgs[..|p.lintArgs|] == p.lintArgs;
    forall arg: string {
      TargetNames(arg);
    }
    assert forall i | 0 <= i < |p.cargoArgs| :: p.cargoArgs[i] in p.cargoArgs;
  }

  // ---------------------------------------------------------------- building

  /** The lint arguments the wrapper adds in front of the user's. */
  function Defaults(p: Parsed, manifestPath: string): Args {
    (if p.flags.manifestPath then [] else ["--manifest-path", manifestPath])
    + (if p.flags.packageSelection || p.flags.manifestPath then [] else ["--workspace"])
    + (if p.flags.noDeps then [] else ["--no-deps"])
  }

  function CargoArgs(p: Parsed): Args {
    if p.flags.fix || p.cargoTargetSelection then p.cargoArgs else p.cargoArgs + ["--all-targets"]
  }

  function Separated(lint: Args, cargo: Args): Args {
    if cargo == [] then lint else lint + [SEPARATOR] + cargo
  }

  function Built(p: Parsed, manifestPath: string): Args {
    Separated(Defaults(p, manifestPath) + p.lintArgs, CargoArgs(p))
  }

  method BuildFinalArgs(parsed: Parsed, manifestPath: string) returns (finalArgs: Args)
    ensures finalArgs == Built(parsed, manifestPath)
  {
    finalArgs := [];
    var cargoArgs := parsed.cargoArgs;
    if !parsed.flags.manifestPath {
      finalArgs := finalArgs + ["--manifest-path", manifestPath];
    }
    if !parsed.flags.packageSelection && !parsed.flags.manifestPath {
      finalArgs := finalArgs + ["--workspace"];
    }
    if !parsed.flags.noDeps {
      finalArgs := finalArgs + ["--no-deps"];
    }
    if !parsed.flags.fix && !parsed.cargoTargetSelection {
      cargoArgs := cargoArgs + ["--all-targets"];
    }
    assert finalArgs == Defaults(parsed, manifestPath);
    finalArgs := finalArgs + parsed.lintArgs;
    if cargoArgs != [] {
      finalArgs := finalArgs + ([SEPARATOR] + cargoArgs);
    }
  }

  function Normalize(argv: Args, manifestPath: string): Args {
    Built(Meaning(argv), manifestPath)
  }

  // ---------------------------------------------------------------- normalising twice

  lemma {:induction false} LintLengthOf(lint: Args, rest: Args)
    requires SEPARATOR !in lint
    requires rest != [] ==> rest[0] == SEPARATOR
    ensures LintLength(lint + rest) == |lint|
    decreases |lint|
  {
    if lint == [] {
      assert lint + rest == rest;
    } else {
      assert (lint + rest)[1..] == lint[1..] + rest;
      LintLengthOf(lint[1..], rest);
    }
  }

  lemma MeaningOfSeparated(lint: Args, cargo: Args)
    requires SEPARATOR !in lint
    ensures Meaning(Separated(lint, cargo)) == Parsed(lint, cargo, LintFlags(lint, Nothing), AnyTarget(cargo))
  {
    var rest := if cargo == [] then [] else [SEPARATOR] + cargo;
    var argv := lint + rest;
    assert argv == Separated(lint, cargo);
    LintLengthOf(lint, rest);
    assert argv[..|lint|] == lint;
    if cargo == [] {
      assert argv == lint;
    } else {
      assert argv[|lint| + 1..] == cargo;
    }
  }

  /** The added arguments select what was missing and leave no value expected. */
  lemma FlagsOfDefaults(p: Parsed, manifestPath: string)
    ensures LintExpects(Defaults(p, manifestPath), Nothing) == Nothing
    ensures LintFlags(Defaults(p, manifestPath), Nothing)
         == Flags(!p.flags.manifestPath, !p.flags.packageSelection && !p.flags.manifestPath, !p.flags.noDeps, false,
                  false)
  {
    var m := if p.flags.manifestPath then [] else ["--manifest-path", manifestPath];
    var w := if p.flags.packageSelection || p.flags.manifestPath then [] else ["--workspace"];
    var d := if p.flags.noDeps then [] else ["--no-deps"];
    LintFlagsAppend(m + w, d, Nothing);
    LintFlagsAppend(m, w, Nothing);
    if m != [] {
      assert ["--manifest-path", manifestPath][1..] == [manifestPath];
      LintFlagsOne(manifestPath, ManifestPath);
    }
    LintFlagsOne("--workspace", Nothing);
    LintFlagsOne("--no-deps", Nothing);
  }

  lemma AllTargetsSelects(cargo: Args)
    ensures AnyTarget(cargo + ["--all-targets"])
  {
    var more := cargo + ["--all-targets"];
    assert SelectsTarget(more[|cargo|]);
  }

  /** Parsing a normalised command line finds the user's lint and cargo arguments again, in order, behind
      and before the defaults. */
  lemma NormalizedKeepsUserArgs(argv: Args, manifestPath: string)
    requires manifestPath != SEPARATOR || Meaning(argv).flags.manifestPath
    ensures var p := Meaning(argv);
            var again := Meaning(Normalize(argv, manifestPath));
            && again.lintArgs == Defaults(p, manifestPath) + p.lintArgs
            && again.cargoArgs == CargoArgs(p)
            && again.flags == Or(p.flags, LintFlags(Defaults(p, manifestPath), Nothing))
            && again.cargoTargetSelection == AnyTarget(CargoArgs(p))
  {
    var p := Meaning(argv);
    var lint := Defaults(p, manifestPath) + p.lintArgs;
    assert SEPARATOR !in lint;
    MeaningOfSeparated(lint, CargoArgs(p));
    FlagsOfDefaults(p, manifestPath);
    LintFlagsAppend(Defaults(p, manifestPath), p.lintArgs, Nothing);
  }

  /** Normalising a normalised command line, with whatever manifest path the second run would default
      to, gives the same list. */
  lemma NormalizedIsFixed(argv: Args, manifestPath: string, other: string)
    requires manifestPath != SEPARATOR || Meaning(argv).flags.manifestPath
    ensures Normalize(Normalize(argv, manifestPath), other) == Normalize(argv, manifestPath)
  {
    var p := Meaning(argv);
    NormalizedKeepsUserArgs(argv, manifestPath);
    FlagsOfDefaults(p, manifestPath);
    AllTargetsSelects(p.cargoArgs);
    var again := Meaning(Normalize(argv, manifestPath));
    assert Defaults(again, other) == [];
    assert again.flags.fix || again.cargoTargetSelection;
    assert [] + again.lintArgs == again.lintArgs;
  }

  lemma MeaningWithSeparatorSecond(first: string, rest: Args)
    requires first != SEPARATOR
    ensures Meaning([first, SEPARATOR] + rest) == Parsed([first], rest, Selected(first), AnyTarget(rest))
  {
    var argv := [first, SEPARATOR] + rest;
    assert argv == [first] + ([SEPARATOR] + rest);
    LintLengthOf([first], [SEPARATOR] + rest);
    assert argv[..1] == [first] && argv[2..] == rest;
    LintFlagsOne(first, Nothing);
  }

  /** With `--` as manifest path and none on the command line, the second pass takes the path for the
      separator, and the list grows. */
  lemma SeparatorAsManifestPathGrows(argv: Args)
    requires !Meaning(argv).flags.manifestPath
    ensures |Normalize(Normalize(argv, SEPARATOR), SEPARATOR)| > |Normalize(argv, SEPARATOR)|
  {
    var once := Normalize(argv, SEPARATOR);
    NormalizedStart(Meaning(argv));
    var rest := once[2..];
    assert once == ["--manifest-path", SEPARATOR] + rest;
    MeaningWithSeparatorSecond("--manifest-path", rest);
    BuiltLength(Meaning(once), SEPARATOR);
  }

  lemma NormalizedStart(p: Parsed)
    requires !p.flags.manifestPath
    ensures var once := Built(p, SEPARATOR); |once| >= 2 && once[0] == "--manifest-path" && once[1] == SEPARATOR
  {
  }

  lemma BuiltLength(p: Parsed, manifestPath: string)
    requires p.flags == NoFlags
    ensures |Built(p, manifestPath)| >= 4 + |p.lintArgs| + |p.cargoArgs|
  {
    assert |Defaults(p, manifestPath)| == 4;
  }

  /** Normalising is idempotent exactly when the default manifest path is not the separator, or is not
      needed because the command line names one. */
  lemma NormalizingIsIdempotent(argv: Args, manifestPath: string)
    ensures Normalize(Normalize(argv, manifestPath), manifestPath) == Normalize(argv, manifestPath)
       <==> manifestPath != SEPARATOR || Meaning(argv).flags.manifestPath
  {
    if manifestPath != SEPARATOR || Meaning(argv).flags.manifestPath {
      NormalizedIsFixed(argv, manifestPath, manifestPath);
    } else {
      SeparatorAsManifestPathGrows(argv);
    }
  }
}
