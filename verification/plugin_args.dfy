/** The docker CLI plugin calling convention handled at the start of
    `App::main`: docker runs the plugin with its own global options, then the
    word "reroll", then the plugin's options. The options in front of the
    first "reroll" are kept to prefix every later `docker` invocation, the
    rest become the plugin's own command line. */
module PluginArgs {
  import Text

  const Reroll: string := "reroll"

  /** `s` with every occurrence of `x` removed, order kept. */
  function Without(s: seq<string>, x: string): (r: seq<string>)
    ensures x !in r
    ensures |r| <= |s|
  {
    if s == [] then [] else Without(s[..|s| - 1], x) + (if s[|s| - 1] == x then [] else [s[|s| - 1]])
  }

  lemma {:induction false} WithoutCons(y: string, s: seq<string>, x: string)
    ensures Without([y] + s, x) == (if y == x then [] else [y]) + Without(s, x)
    decreases |s|
  {
    if s != [] {
      var init := s[..|s| - 1];
      WithoutCons(y, init, x);
      assert ([y] + s)[..|[y] + s| - 1] == [y] + init;
    } else {
      assert [y] + s == [y];
    }
  }

  lemma {:induction false} WithoutSnoc(s: seq<string>, y: string, x: string)
    ensures Without(s + [y], x) == Without(s, x) + (if y == x then [] else [y])
  {
    assert (s + [y])[..|s + [y]| - 1] == s;
  }

  /** Position of the first "reroll" after the program name, or `|argv|`. */
  function FirstReroll(argv: seq<string>): (k: nat)
    requires argv != []
    ensures 1 <= k <= |argv|
    ensures forall j :: 1 <= j < k ==> argv[j] != Reroll
    ensures k < |argv| ==> argv[k] == Reroll
  {
    var k := 1 + Text.IndexOf(argv[1..], Reroll);
    assert forall j :: 1 <= j < k ==> argv[j] == argv[1..][j - 1];
    k
  }

  /** The split as a closed formula: without any "reroll" the command line is
      left alone and no docker options are kept; otherwise the docker options
      are the arguments strictly between the program name and the first
      "reroll" after it, and the new command line is the program name followed
      by everything after that "reroll", with all further "reroll" words
      dropped. */
  function Split(argv: seq<string>): (seq<string>, seq<string>)
  {
    if Reroll !in argv then (argv, [])
    else
      var k := FirstReroll(argv);
      ([argv[0]] + Without(argv[k..], Reroll), argv[1..k])
  }

  /** Appending one more argument after the first "reroll" extends the kept
      plugin arguments by that argument, unless it is "reroll" itself. */
  lemma {:induction false} WithoutStep(argv: seq<string>, k: nat, i: nat)
    requires k <= i < |argv|
    ensures Without(argv[k..i + 1], Reroll) == Without(argv[k..i], Reroll) + (if argv[i] == Reroll then [] else [argv[i]])
  {
    assert argv[k..i + 1] == argv[k..i] + [argv[i]];
    WithoutSnoc(argv[k..i], argv[i], Reroll);
  }

  /** Where the walk stands after the arguments before `i`, given the
      position `k` of the first "reroll": before it, only docker options have
      been collected; after it, the docker options are complete and the
      plugin arguments seen so far have been kept. */
  predicate WalkedTo(argv: seq<string>, k: nat, i: nat, found: bool, newArgs: seq<string>, dockerArgs: seq<string>)
    requires 1 <= k <= |argv| && 1 <= i <= |argv|
  {
    && (found <==> k < i)
    && (if found then dockerArgs == argv[1..k] && newArgs == [argv[0]] + Without(argv[k..i], Reroll)
        else dockerArgs == argv[1..i] && newArgs == [argv[0]])
  }

  /** After the first "reroll", an argument is kept unless it is "reroll". */
  lemma {:induction false} WalkStepAfter(argv: seq<string>, i: nat, newArgs: seq<string>, dockerArgs: seq<string>)
    requires 1 <= i < |argv|
    requires WalkedTo(argv, FirstReroll(argv), i, true, newArgs, dockerArgs)
    ensures WalkedTo(argv, FirstReroll(argv), i + 1, true, newArgs + (if argv[i] == Reroll then [] else [argv[i]]), dockerArgs)
  {
    WithoutStep(argv, FirstReroll(argv), i);
  }

  /** The first "reroll" ends the docker options and keeps nothing. */
  lemma {:induction false} WalkStepAt(argv: seq<string>, i: nat, newArgs: seq<string>, dockerArgs: seq<string>)
    requires 1 <= i < |argv| && argv[i] == Reroll
    requires WalkedTo(argv, FirstReroll(argv), i, false, newArgs, dockerArgs)
    ensures WalkedTo(argv, FirstReroll(argv), i + 1, true, newArgs, dockerArgs)
  {
    var k := FirstReroll(argv);
    assert k == i;
    WithoutStep(argv, k, i);
    assert argv[k..i] == [];
  }

  /** Before the first "reroll", an argument is a docker option. */
  lemma {:induction false} WalkStepBefore(argv: seq<string>, i: nat, newArgs: seq<string>, dockerArgs: seq<string>)
    requires 1 <= i < |argv| && argv[i] != Reroll
    requires WalkedTo(argv, FirstReroll(argv), i, false, newArgs, dockerArgs)
    ensures WalkedTo(argv, FirstReroll(argv), i + 1, false, newArgs, dockerArgs + [argv[i]])
  {
    var k := FirstReroll(argv);
    assert k != i;
    assert argv[1..i + 1] == argv[1..i] + [argv[i]];
  }

  /** Having walked every argument, the walk has produced the split. */
  lemma {:induction false} WalkDone(argv: seq<string>, found: bool, newArgs: seq<string>, dockerArgs: seq<string>)
    requires argv != []
    requires WalkedTo(argv, FirstReroll(argv), |argv|, found, newArgs, dockerArgs)
    ensures var k := FirstReroll(argv);
      newArgs == [argv[0]] + Without(argv[k..], Reroll) && dockerArgs == argv[1..k]
  {
    var k := FirstReroll(argv);
    if found {
      assert argv[k..|argv|] == argv[k..];
    } else {
      assert argv[k..] == [];
    }
  }

  /** The loop of `App::main` that walks the arguments after the program name,
      switching from docker options to plugin arguments at the first
      "reroll" and skipping every "reroll" word. */
  method WalkArgs(argv: seq<string>) returns (newArgs: seq<string>, dockerArgs: seq<string>)
    requires argv != []
    ensures var k := FirstReroll(argv);
      newArgs == [argv[0]] + Without(argv[k..], Reroll) && dockerArgs == argv[1..k]
  {
    ghost var k := FirstReroll(argv);
    newArgs, dockerArgs := [argv[0]], [];
    var found := false;
    var i := 1;
    while i < |argv|
      invariant 1 <= i <= |argv|
      invariant WalkedTo(argv, k, i, found, newArgs, dockerArgs)
    {
      var arg := argv[i];
      if found {
        WalkStepAfter(argv, i, newArgs, dockerArgs);
        if arg != Reroll {
          newArgs := newArgs + [arg];
        }
      } else if arg == Reroll {
        WalkStepAt(argv, i, newArgs, dockerArgs);
        found := true;
      } else {
        WalkStepBefore(argv, i, newArgs, dockerArgs);
        dockerArgs := dockerArgs + [arg];
      }
      i := i + 1;
    }
    WalkDone(argv, found, newArgs, dockerArgs);
  }

  /** The argument handling of `App::main`: the walk happens only when some
      argument, the program name included, is "reroll". */
  method SplitPluginArgs(argv: seq<string>) returns (envArgs: seq<string>, dockerArgs: seq<string>)
    ensures (envArgs, dockerArgs) == Split(argv)
    ensures Reroll !in argv ==> envArgs == argv && dockerArgs == []
    ensures Reroll in argv ==>
      && envArgs != [] && envArgs[0] == argv[0]
      && Reroll !in envArgs[1..] && Reroll !in dockerArgs
      && |dockerArgs| < |argv| && dockerArgs == argv[1..|dockerArgs| + 1]
  {
    if Reroll in argv {
      envArgs, dockerArgs := WalkArgs(argv);
      assert envArgs[1..] == Without(argv[FirstReroll(argv)..], Reroll);
    } else {
      envArgs, dockerArgs := argv, [];
    }
  }

  /** Removing a word that is not there changes nothing. */
  lemma {:induction false} WithoutAbsent(s: seq<string>, x: string)
    requires x !in s
    ensures Without(s, x) == s
    decreases |s|
  {
    if s != [] {
      WithoutAbsent(s[..|s| - 1], x);
      assert s[..|s| - 1] + [s[|s| - 1]] == s;
    }
  }

  /** The usual plugin invocation, `docker <options> reroll <arguments>`
      with no further "reroll" words: the options become the docker options
      and the program name followed by the arguments the new command line,
      whatever the program name is. */
  lemma {:induction false} SplitOfPluginInvocation(program: string, options: seq<string>, arguments: seq<string>)
    requires Reroll !in options && Reroll !in arguments
    ensures Split([program] + options + [Reroll] + arguments) == ([program] + arguments, options)
  {
    var argv := [program] + options + [Reroll] + arguments;
    var front, back := [program] + options, [Reroll] + arguments;
    assert argv == front + back;
    var n := |front|;
    assert argv[n] == Reroll;
    assert argv[1..n] == front[1..] == options;
    var k := FirstReroll(argv);
    assert k == n;
    assert argv[k..] == back;
    WithoutCons(Reroll, arguments, Reroll);
    WithoutAbsent(arguments, Reroll);
    assert Without(back, Reroll) == arguments;
    assert argv[0] == program;
    assert Reroll in argv;
    assert Split(argv) == ([argv[0]] + Without(argv[k..], Reroll), argv[1..k]);
  }
}
