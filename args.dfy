/** The loop over `process.argv` (package.js lines 35-48) and the check
    that an app directory was given (lines 50-54). */
module Args {
  import opened JsValues

  const AppIdFlag: string := "--app-id="
  const AppDirFlag: string := "--app-dir="
  const RuntimeIdFlag: string := "--runtime-id="
  const AssetsFlag: string := "--assets="

  /** The four variables as the loop leaves them: the ids as raw text, the
      two directories after `path.resolve`; `None` when never assigned. */
  datatype CliArgs = CliArgs(
    appId: Option<string>,
    appDir: Option<string>,
    runtimeId: Option<string>,
    assets: Option<string>)

  predicate Recognised(arg: string) {
    AppIdFlag <= arg || AppDirFlag <= arg || RuntimeIdFlag <= arg || AssetsFlag <= arg
  }

  /** The text after `flag` in the last argument that starts with `flag`. */
  function LastFlag(args: seq<string>, flag: string): Option<string>
    decreases |args|
  {
    if args == [] then None
    else if flag <= args[|args| - 1] then Some(args[|args| - 1][|flag|..])
    else LastFlag(args[..|args| - 1], flag)
  }

  function MapOption(o: Option<string>, f: string -> string): Option<string> {
    if o.Some? then Some(f(o.value)) else None
  }

  /** What the argument loop computes, flag by flag. */
  function Parsed(argv: seq<string>, resolve: string -> string): CliArgs {
    CliArgs(
      LastFlag(argv, AppIdFlag),
      MapOption(LastFlag(argv, AppDirFlag), resolve),
      LastFlag(argv, RuntimeIdFlag),
      MapOption(LastFlag(argv, AssetsFlag), resolve))
  }

  /** No argument starts with two of the four flags, so the order of the
      `else if` chain does not matter. */
  lemma FlagsExclusive(arg: string)
    ensures AppIdFlag <= arg ==> !(AppDirFlag <= arg) && !(RuntimeIdFlag <= arg) && !(AssetsFlag <= arg)
    ensures AppDirFlag <= arg ==> !(RuntimeIdFlag <= arg) && !(AssetsFlag <= arg)
    ensures RuntimeIdFlag <= arg ==> !(AssetsFlag <= arg)
  {
    if AppIdFlag <= arg {
      assert arg[2] == 'a' && arg[6] == 'i';
    }
    if AppDirFlag <= arg {
      assert arg[2] == 'a' && arg[6] == 'd';
    }
    if RuntimeIdFlag <= arg {
      assert arg[2] == 'r';
    }
  }

  /** The loop of lines 35-48: each recognised argument overwrites its
      variable; any other argument is skipped. */
  method ParseArgv(argv: seq<string>, resolve: string -> string) returns (cli: CliArgs)
    ensures cli == Parsed(argv, resolve)
  {
    var appId, appDir, runtimeId, assets := None, None, None, None;
    for i := 0 to |argv|
      invariant appId == LastFlag(argv[..i], AppIdFlag)
      invariant appDir == MapOption(LastFlag(argv[..i], AppDirFlag), resolve)
      invariant runtimeId == LastFlag(argv[..i], RuntimeIdFlag)
      invariant assets == MapOption(LastFlag(argv[..i], AssetsFlag), resolve)
    {
      var arg := argv[i];
      assert argv[..i + 1][..i] == argv[..i];
      FlagsExclusive(arg);
      if AppIdFlag <= arg {
        appId := Some(arg[|AppIdFlag|..]);
      } else if AppDirFlag <= arg {
        appDir := Some(resolve(arg[|AppDirFlag|..]));
      } else if RuntimeIdFlag <= arg {
        runtimeId := Some(arg[|RuntimeIdFlag|..]);
      } else if AssetsFlag <= arg {
        assets := Some(resolve(arg[|AssetsFlag|..]));
      }
    }
    assert argv[..|argv|] == argv;
    cli := CliArgs(appId, appDir, runtimeId, assets);
  }

  /** Argument `i` is the last one that starts with `flag`. */
  ghost predicate IsLastMatch(args: seq<string>, flag: string, i: int) {
    0 <= i < |args| && flag <= args[i] && forall j :: i < j < |args| ==> !(flag <= args[j])
  }

  /** A flag's value is exactly the text after the prefix in its last
      occurrence, and it is unset exactly when no argument starts with it. */
  lemma {:induction false} LastFlagIsLastMatch(args: seq<string>, flag: string)
    ensures LastFlag(args, flag).None? <==> forall j :: 0 <= j < |args| ==> !(flag <= args[j])
    ensures forall i :: IsLastMatch(args, flag, i) ==> LastFlag(args, flag) == Some(args[i][|flag|..])
    decreases |args|
  {
    if args != [] {
      var init := args[..|args| - 1];
      LastFlagIsLastMatch(init, flag);
      forall i | IsLastMatch(args, flag, i)
        ensures LastFlag(args, flag) == Some(args[i][|flag|..])
      {
        if i < |args| - 1 {
          assert IsLastMatch(init, flag, i);
        }
      }
    }
  }

  /** A later occurrence of a flag overrides every earlier one. */
  lemma LaterFlagWins(args: seq<string>, flag: string, value: string)
    ensures LastFlag(args + [flag + value], flag) == Some(value)
  {
    assert (flag + value)[|flag|..] == value;
  }

  /** An argument that starts with none of the four flags changes nothing. */
  lemma UnrecognisedArgIgnored(args: seq<string>, arg: string, resolve: string -> string)
    requires !Recognised(arg)
    ensures Parsed(args + [arg], resolve) == Parsed(args, resolve)
  {
    assert (args + [arg])[..|args|] == args;
  }
}
